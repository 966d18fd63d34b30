// How the chunk loop keeps time: the stall give-up, the retransmit timeout and
// the round-trip estimate (internal/masso/upload.go).
module ChunkTiming {
  import opened Bytes
  import opened UploadClient
  import opened ChunkLoop

  // Each turn's clock reading is no earlier than the one before.
  ghost predicate Monotone(now: int, env: seq<Obs>) {
    && (env != [] ==> now <= env[0].now)
    && forall i, k :: 0 <= i < k < |env| ==> env[i].now <= env[k].now
  }

  ghost predicate Silent(env: seq<Obs>) {
    forall i :: 0 <= i < |env| ==> env[i].ack.NoAck?
  }

  // --- Timeouts and waits --------------------------------------------------

  lemma TimeoutClamped(srtt: int)
    ensures RetransmitTimeout(srtt) == if 2 * srtt < 40_000_000 then 40_000_000
                                       else if 2 * srtt > 250_000_000 then 250_000_000 else 2 * srtt
  {
  }

  // A turn that waits has a positive time to wait; until it is over there is
  // nothing to do, and from then on there is.
  lemma WaitExact(j: Job, w: Window, now: int, later: int)
    requires w.flight != [] && Judge(j, w, now) == Continue(w, []) && now <= later
    ensures Wait(j, w, now) > 0
    ensures Judge(j, w, later) == Continue(w, []) <==> later < now + Wait(j, w, now)
  {
    assert |Packets(w.flight)| > 0;
  }

  // --- The stall give-up ---------------------------------------------------

  // Giving up for lack of a response is exactly finding, with the window full
  // and no ACK waiting, that StallTimeout has passed since the last ACK.
  lemma {:induction false} NoResponseIffStalled(j: Job, w: Window, env: seq<Obs>)
    requires WellFormed(j, w) && w.accepted < j.total
    ensures Run(j, w, env).0 == Some(Failed(NoResponse)) <==> StallsIn(j, w, w.lastActivity, env)
    decreases |env|
  {
    if env != [] {
      var t := TurnChunks(j, w, env[0]);
      if t.Continue? {
        TurnKeepsWindow(j, w, env[0]);
        NoResponseIffStalled(j, t.w, env[1..]);
      } else if !CanFill(j, w) {
        FlightNotEmpty(j, w);
      }
    }
  }

  // Some turn of env, reached by the loop, found the stall deadline passed.
  predicate StallsIn(j: Job, w: Window, lastAck: int, env: seq<Obs>)
    requires WellFormed(j, w) && w.accepted < j.total
    decreases |env|
  {
    env != [] &&
    var o := env[0];
    var t := TurnChunks(j, w, o);
    if !CanFill(j, w) && o.ack.NoAck? && o.now >= lastAck + j.stallTimeout then true
    else if t.Return? then false
    else
      TurnKeepsWindow(j, w, o);
      StallsIn(j, t.w, if CanFill(j, w) || o.ack.NoAck? then lastAck else o.now, env[1..])
  }

  // --- Silence -------------------------------------------------------------

  predicate Resends(j: Job, w: Window, o: Obs)
    requires WellFormed(j, w) && w.accepted < j.total
  {
    !CanFill(j, w) && o.ack.NoAck? && o.now < w.lastActivity + j.stallTimeout &&
    (FlightNotEmpty(j, w); o.now > ResendAt(w))
  }

  // How many times the flight is retransmitted.
  function Rounds(j: Job, w: Window, env: seq<Obs>): nat
    requires WellFormed(j, w) && w.accepted < j.total
    decreases |env|
  {
    if env == [] then 0
    else
      var t := TurnChunks(j, w, env[0]);
      if t.Return? then 0
      else
        TurnKeepsWindow(j, w, env[0]);
        (if Resends(j, w, env[0]) then 1 else 0) + Rounds(j, t.w, env[1..])
  }

  // In silence every round after the first follows the one before by more than
  // the least timeout, and all of them precede the stall deadline.
  lemma {:induction false} RoundsSpaced(j: Job, w: Window, env: seq<Obs>)
    requires WellFormed(j, w) && w.accepted < j.total && w.flight != [] && Silent(env)
    ensures Rounds(j, w, env) >= 1 ==>
              Rounds(j, w, env) * MIN_RTO < w.lastActivity + j.stallTimeout - w.flight[0].sentAt
    decreases |env|
  {
    if env != [] {
      var t := TurnChunks(j, w, env[0]);
      if t.Continue? {
        TurnKeepsWindow(j, w, env[0]);
        assert Silent(env[1..]);
        RoundsSpaced(j, t.w, env[1..]);
        TimeoutClamped(w.srtt);
      }
    }
  }

  lemma {:induction false} RoundsBounded(j: Job, w: Window, env: seq<Obs>)
    requires WellFormed(j, w) && w.accepted < j.total && Silent(env) && Monotone(w.lastActivity, env)
    ensures Rounds(j, w, env) >= 1 ==> (Rounds(j, w, env) - 1) * MIN_RTO < j.stallTimeout
    decreases |env|
  {
    if env != [] {
      var t := TurnChunks(j, w, env[0]);
      if t.Continue? {
        TurnKeepsWindow(j, w, env[0]);
        assert Silent(env[1..]) && Monotone(w.lastActivity, env[1..]);
        if Resends(j, w, env[0]) {
          RoundsSpaced(j, t.w, env[1..]);
        } else {
          assert t.w.lastActivity == w.lastActivity;
          RoundsBounded(j, t.w, env[1..]);
        }
      }
    }
  }

  // How many more chunks the window lets out without an ACK.
  function Room(w: Window): nat {
    if w.next < w.accepted + w.window then w.accepted + w.window - w.next else 0
  }

  // Once silent for StallTimeout, the loop returns by its third turn at the
  // latest, and never for any reason but the silence or the reader.
  lemma {:induction false} SilenceReturns(j: Job, w: Window, env: seq<Obs>)
    requires WellFormed(j, w) && w.accepted < j.total && Silent(env)
    ensures Run(j, w, env).0.Some? ==>
              Run(j, w, env).0.value == Failed(NoResponse) || Run(j, w, env).0.value == Failed(ReadFailed)
    ensures (exists k :: Room(w) <= k < |env| && env[k].now >= w.lastActivity + j.stallTimeout) ==>
              Run(j, w, env).0.Some?
    decreases |env|
  {
    if env != [] {
      var t := TurnChunks(j, w, env[0]);
      if t.Continue? {
        TurnKeepsWindow(j, w, env[0]);
        assert Silent(env[1..]);
        SilenceReturns(j, t.w, env[1..]);
        assert t.w.lastActivity == w.lastActivity;
        if k :| Room(w) <= k < |env| && env[k].now >= w.lastActivity + j.stallTimeout {
          StillRoom(j, w, env[0]);
          if k == 0 {
            FlightNotEmpty(j, w);
          } else {
            assert env[1..][k - 1] == env[k];
          }
        }
      } else if !CanFill(j, w) {
        FlightNotEmpty(j, w);
      }
    }
  }

  lemma StillRoom(j: Job, w: Window, o: Obs)
    requires WellFormed(j, w) && w.accepted < j.total && o.ack.NoAck?
    ensures var t := TurnChunks(j, w, o);
            t.Continue? ==> Room(t.w) <= (if Room(w) > 0 then Room(w) - 1 else 0) || (!CanFill(j, w) && Room(t.w) <= Room(w))
  {
    if !CanFill(j, w) { FlightNotEmpty(j, w); }
  }

  // Silence ends the upload: with no further ACK, the loop ends once
  // StallTimeout has passed, not before unless a read fails, after a bounded
  // number of retransmit rounds.
  lemma {:induction false} SilenceEndsUpload(j: Job, w: Window, env: seq<Obs>)
    requires WellFormed(j, w) && w.accepted < j.total && Silent(env) && Monotone(w.lastActivity, env)
    requires |env| >= 3 && env[|env| - 1].now >= w.lastActivity + j.stallTimeout
    requires j.stallTimeout > 0
    ensures Run(j, w, env).0 == Some(Failed(NoResponse)) || Run(j, w, env).0 == Some(Failed(ReadFailed))
    ensures Run(j, w, env).0 == Some(Failed(NoResponse)) ==> StallsIn(j, w, w.lastActivity, env)
    ensures Rounds(j, w, env) <= j.stallTimeout / MIN_RTO + 1
  {
    var k := |env| - 1;
    assert Room(w) <= k < |env| && env[k].now >= w.lastActivity + j.stallTimeout;
    SilenceReturns(j, w, env);
    NoResponseIffStalled(j, w, env);
    RoundsBounded(j, w, env);
    RoundsFit(Rounds(j, w, env), j.stallTimeout);
  }

  lemma RoundsFit(rounds: nat, stall: int)
    requires stall > 0 && (rounds >= 1 ==> (rounds - 1) * MIN_RTO < stall)
    ensures rounds <= stall / MIN_RTO + 1
  {
  }

  // --- The round-trip estimate ----------------------------------------------

  // The first n chunks of the flight that were never retransmitted took
  // between lo and hi to be acknowledged.
  ghost predicate CleanSamplesWithin(flight: seq<Flight>, n: nat, now: int, lo: int, hi: int)
    requires n <= |flight|
  {
    forall i :: 0 <= i < n && !flight[i].retransmitted ==> lo <= now - flight[i].sentAt <= hi
  }

  // The estimate never leaves the range of its previous value and the clean
  // samples: retransmitted chunks contribute nothing.
  lemma {:induction false} EstimateWithinSamples(w: Window, n: nat, now: int, lo: int, hi: int)
    requires n <= |w.flight| && 0 <= lo <= w.srtt <= hi && CleanSamplesWithin(w.flight, n, now, lo, hi)
    ensures lo <= AbsorbMany(w, n, now).srtt <= hi
    ensures (forall i :: 0 <= i < n ==> w.flight[i].retransmitted) ==> AbsorbMany(w, n, now).srtt == w.srtt
    decreases n
  {
    if n > 0 {
      var v := Absorb(w, now);
      assert forall i :: 0 <= i < n - 1 ==> v.flight[i] == w.flight[i + 1];
      EstimateWithinSamples(v, n - 1, now, lo, hi);
    }
  }

  // Every clean sample the loop takes on env lies within lo and hi.
  ghost predicate SamplesWithin(j: Job, w: Window, env: seq<Obs>, lo: int, hi: int)
    requires WellFormed(j, w) && w.accepted < j.total
    decreases |env|
  {
    env == [] ||
    var t := TurnChunks(j, w, env[0]);
    && (t.Continue? && !CanFill(j, w) ==>
          CleanSamplesWithin(w.flight, t.w.accepted - w.accepted, env[0].now, lo, hi))
    && (t.Continue? ==>
          (TurnKeepsWindow(j, w, env[0]); SamplesWithin(j, t.w, env[1..], lo, hi)))
  }

  lemma {:induction false} EstimateBetweenSeedAndSamples(j: Job, w: Window, env: seq<Obs>, lo: int, hi: int)
    requires WellFormed(j, w) && w.accepted < j.total
    requires 0 <= lo <= w.srtt <= hi && SamplesWithin(j, w, env, lo, hi)
    ensures var v := WindowAfter(j, w, env); v.Some? ==> lo <= v.value.srtt <= hi
    decreases |env|
  {
    if env != [] && TurnChunks(j, w, env[0]).Continue? {
      TurnKeepsWindow(j, w, env[0]);
      TurnEstimate(j, w, env[0], lo, hi);
      EstimateBetweenSeedAndSamples(j, TurnChunks(j, w, env[0]).w, env[1..], lo, hi);
    }
  }

  lemma TurnEstimate(j: Job, w: Window, o: Obs, lo: int, hi: int)
    requires WellFormed(j, w) && w.accepted < j.total && 0 <= lo <= w.srtt <= hi
    requires var t := TurnChunks(j, w, o);
             && t.Continue? && w.accepted <= t.w.accepted <= w.accepted + |w.flight|
             && (!CanFill(j, w) ==> CleanSamplesWithin(w.flight, t.w.accepted - w.accepted, o.now, lo, hi))
    ensures lo <= TurnChunks(j, w, o).w.srtt <= hi
  {
    if !CanFill(j, w) {
      match o.ack
      case GotAck(result, accepted) => AckEstimate(j, w, result, accepted, o.now, lo, hi);
      case NoAck => FlightNotEmpty(j, w);
    }
  }

  lemma AckEstimate(j: Job, w: Window, result: byte, accepted: nat, now: int, lo: int, hi: int)
    requires |w.flight| == w.next - w.accepted && 0 <= lo <= w.srtt <= hi
    requires var t := FoldAck(j, w, result, accepted, now);
             && t.Continue?
             && (w.accepted <= t.w.accepted <= w.next ==>
                   CleanSamplesWithin(w.flight, t.w.accepted - w.accepted, now, lo, hi))
    ensures lo <= FoldAck(j, w, result, accepted, now).w.srtt <= hi
  {
    if w.accepted < accepted <= w.next {
      var w1 := w.(lastActivity := now);
      EstimateWithinSamples(w1, accepted - w.accepted, now, lo, hi);
    }
  }
}
