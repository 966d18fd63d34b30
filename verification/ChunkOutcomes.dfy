// Why the chunk loop returns what it returns, and what an ACK teaches it
// (internal/masso/upload.go, internal/masso/reply.go).
module ChunkOutcomes {
  import opened Bytes
  import opened Wire
  import opened Controller
  import opened UploadClient
  import opened ChunkLoop
  import opened ChunkResends

  // The turn that reads o from this window ends the upload in out.
  ghost predicate Ends(j: Job, w: Window, o: Obs, out: Outcome) {
    var full := w.next == j.total || w.next - w.accepted >= w.window;
    match out
    case Nil => w.next == j.total && o.ack == GotAck(0x00, j.total)
    case Failed(ReadFailed) => !full && (o.read < j.size(w.next) || o.readErr == OtherError)
    case Failed(NoResponse) => full && o.ack.NoAck? && o.now - w.lastActivity >= j.stallTimeout
    case Failed(USBWrite) => full && o.ack.GotAck? && o.ack.result == 0x01
    case Failed(CanceledOnMasso) => full && o.ack.GotAck? && o.ack.result == 0x02
    case Failed(TransferFailed) => full && o.ack.GotAck? && o.ack.result > 0x02
    case Failed(_) => false
  }

  lemma TurnReturnsIff(j: Job, w: Window, o: Obs, out: Outcome)
    requires WellFormed(j, w) && w.accepted < j.total
    ensures TurnChunks(j, w, o) == Return(out) <==> Ends(j, w, o, out)
  {
    if !CanFill(j, w) { FlightNotEmpty(j, w); }
  }

  // The loop gets as far as turn k, which ends it in out.
  ghost predicate EndsAt(j: Job, w: Window, env: seq<Obs>, k: nat, out: Outcome)
    requires WellFormed(j, w) && w.accepted < j.total && k < |env|
  {
    var v := WindowAfter(j, w, env[..k]);
    v.Some? && Ends(j, v.value, env[k], out)
  }

  lemma EndsAtStep(j: Job, w: Window, env: seq<Obs>, k: nat, out: Outcome)
    requires WellFormed(j, w) && w.accepted < j.total && k + 1 < |env| && TurnChunks(j, w, env[0]).Continue?
    ensures var v := TurnChunks(j, w, env[0]).w;
            && WellFormed(j, v) && v.accepted < j.total
            && (EndsAt(j, w, env, k + 1, out) <==> EndsAt(j, v, env[1..], k, out))
  {
    TurnKeepsWindow(j, w, env[0]);
    assert env[..k + 1][1..] == env[1..][..k] && env[..k + 1][0] == env[0] && env[1..][k] == env[k + 1];
  }

  // The loop returns out if and only if it gets to a turn that ends it so: a nil
  // result takes an ACK of every chunk, each failure its own cause.
  lemma {:induction false} WhyReturned(j: Job, w: Window, env: seq<Obs>, out: Outcome)
    requires WellFormed(j, w) && w.accepted < j.total
    ensures Run(j, w, env).0 == Some(out) <==> exists k :: 0 <= k < |env| && EndsAt(j, w, env, k, out)
    decreases |env|
  {
    if env != [] {
      var t := TurnChunks(j, w, env[0]);
      TurnReturnsIff(j, w, env[0], out);
      assert env[..0] == [];
      assert EndsAt(j, w, env, 0, out) <==> t == Return(out);
      if t.Continue? {
        TurnKeepsWindow(j, w, env[0]);
        WhyReturned(j, t.w, env[1..], out);
        if k :| 0 <= k < |env| && EndsAt(j, w, env, k, out) {
          EndsAtStep(j, w, env, k - 1, out);
        }
        if k :| 0 <= k < |env[1..]| && EndsAt(j, t.w, env[1..], k, out) {
          EndsAtStep(j, w, env, k, out);
        }
      } else if k :| 0 < k < |env| && EndsAt(j, w, env, k, out) {
        assert env[..k][0] == env[0];
      }
    }
  }

  // --- What an ACK teaches ----------------------------------------------------

  // How many of the first n chunks in flight were never sent again.
  function Clean(flight: seq<Flight>, n: nat): nat
    requires n <= |flight|
  {
    if n == 0 then 0 else (if flight[0].retransmitted then 0 else 1) + Clean(flight[1..], n - 1)
  }

  // b is a quarter of the way from a to the chunk's round-trip time, rounded
  // toward zero; a chunk sent again tells nothing.
  predicate Averages(a: int, f: Flight, now: int, b: int) {
    var sum := 3 * a + (now - f.sentAt);
    if f.retransmitted then b == a
    else if sum >= 0 then 4 * b <= sum < 4 * b + 4
    else 4 * b - 4 < sum <= 4 * b
  }

  // Open to two chunks once three in a row have been acknowledged clean.
  predicate WindowFits(w: Window) {
    w.window == if w.streak >= 3 then 2 else 1
  }

  lemma {:induction false} AbsorbedStreak(w: Window, n: nat, now: int)
    requires n <= |w.flight| && WindowFits(w)
    ensures var r := AbsorbMany(w, n, now);
            WindowFits(r) && r.streak == w.streak + Clean(w.flight, n)
    decreases n
  {
    if n > 0 { AbsorbedStreak(Absorb(w, now), n - 1, now); }
  }

  lemma AbsorbAverages(w: Window, now: int)
    requires w.flight != []
    ensures Averages(w.srtt, w.flight[0], now, Absorb(w, now).srtt)
  {
  }

  // The estimate after one or two chunks acknowledged together, the most there
  // can be.
  ghost predicate Learned(w: Window, n: nat, now: int, srtt: int)
    requires n <= |w.flight|
  {
    && (n == 1 ==> Averages(w.srtt, w.flight[0], now, srtt))
    && (n == 2 ==> exists m :: Averages(w.srtt, w.flight[0], now, m) && Averages(m, w.flight[1], now, srtt))
  }

  lemma AbsorbedLearns(w: Window, n: nat, now: int)
    requires n <= |w.flight| && n <= 2
    ensures Learned(w, n, now, AbsorbMany(w, n, now).srtt)
  {
    if n > 0 {
      var v := Absorb(w, now);
      AbsorbAverages(w, now);
      if n == 2 {
        AbsorbAverages(v, now);
        assert AbsorbMany(w, 2, now) == Absorb(v, now);
      } else {
        assert AbsorbMany(v, 0, now) == v;
      }
    }
  }

  ghost predicate Advances(j: Job, w: Window, o: Obs) {
    && !CanFill(j, w) && o.ack.GotAck? && o.ack.result == 0x00
    && w.accepted < o.ack.accepted <= w.next && o.ack.accepted < j.total
  }

  // The first n chunks have left the flight, and only the clean ones among them
  // have counted for window and estimate.
  ghost predicate Taught(w: Window, n: nat, now: int, v: Window)
    requires n <= |w.flight|
  {
    && v.accepted == w.accepted + n && v.next == w.next && v.flight == w.flight[n..] && v.lastActivity == now
    && v.streak == w.streak + Clean(w.flight, n) && WindowFits(v)
    && Learned(w, n, now, v.srtt)
  }

  lemma AbsorbedTaught(w: Window, n: nat, now: int)
    requires n <= |w.flight| && n <= 2 && WindowFits(w)
    ensures Taught(w, n, now, AbsorbMany(w.(lastActivity := now), n, now))
  {
    AbsorbedStreak(w.(lastActivity := now), n, now);
    AbsorbedLearns(w.(lastActivity := now), n, now);
  }

  // An ACK that counts more chunks, but not the last: exactly those leave the
  // flight.
  lemma AckTeaches(j: Job, w: Window, o: Obs)
    requires WellFormed(j, w) && w.accepted < j.total && Advances(j, w, o) && WindowFits(w)
    ensures var t := TurnChunks(j, w, o);
            t.Continue? && t.sent == [] && Taught(w, o.ack.accepted - w.accepted, o.now, t.w)
  {
    var n := o.ack.accepted - w.accepted;
    AbsorbedTaught(w, n, o.now);
    AckContinues(j, w, o, AbsorbMany(w.(lastActivity := o.now), n, o.now));
  }

  lemma AckContinues(j: Job, w: Window, o: Obs, v: Window)
    requires WellFormed(j, w) && w.accepted < j.total && Advances(j, w, o)
    requires v == AbsorbMany(w.(lastActivity := o.now), o.ack.accepted - w.accepted, o.now)
    ensures TurnChunks(j, w, o) == Continue(v, [])
  {
  }

  // A stale ACK or an impossible one only shows that the controller is alive.
  lemma IdleAckOnlyShowsLife(j: Job, w: Window, o: Obs)
    requires WellFormed(j, w) && w.accepted < j.total && !CanFill(j, w)
    requires o.ack.GotAck? && o.ack.result == 0x00 && (o.ack.accepted <= w.accepted || o.ack.accepted > w.next)
    ensures TurnChunks(j, w, o) == Continue(w.(lastActivity := o.now), [])
  {
  }

  // How many chunks in a row have been acknowledged clean, after one turn and
  // after many: a retransmission starts the count again.
  ghost function CleanAfter(j: Job, w: Window, o: Obs, before: nat): nat
    requires WellFormed(j, w) && w.accepted < j.total && TurnChunks(j, w, o).Continue?
  {
    var n := TurnChunks(j, w, o).w.accepted - w.accepted;
    if Overdue(j, w, o) then 0 else if 0 < n <= |w.flight| then before + Clean(w.flight, n) else before
  }

  ghost function CleanSince(j: Job, w: Window, env: seq<Obs>, before: nat): nat
    requires WellFormed(j, w) && w.accepted < j.total
    decreases |env|
  {
    if env == [] || TurnChunks(j, w, env[0]).Return? then before
    else
      TurnKeepsWindow(j, w, env[0]);
      CleanSince(j, TurnChunks(j, w, env[0]).w, env[1..], CleanAfter(j, w, env[0], before))
  }

  // A turn that acknowledges nothing and retransmits nothing leaves the streak.
  lemma QuietFits(j: Job, w: Window, o: Obs)
    requires WellFormed(j, w) && w.accepted < j.total && !Advances(j, w, o) && !Overdue(j, w, o)
    requires TurnChunks(j, w, o).Continue?
    ensures var v := TurnChunks(j, w, o).w;
            v.streak == w.streak && v.window == w.window && v.accepted == w.accepted
  {
    if !CanFill(j, w) { FlightNotEmpty(j, w); }
  }

  lemma TurnFits(j: Job, w: Window, o: Obs)
    requires WellFormed(j, w) && w.accepted < j.total && WindowFits(w) && TurnChunks(j, w, o).Continue?
    ensures WindowFits(TurnChunks(j, w, o).w) && TurnChunks(j, w, o).w.streak == CleanAfter(j, w, o, w.streak)
  {
    if Advances(j, w, o) {
      AckTeaches(j, w, o);
    } else if Overdue(j, w, o) {
      OverdueResends(j, w, o);
    } else {
      QuietFits(j, w, o);
    }
  }

  lemma CleanStep(j: Job, w: Window, env: seq<Obs>, v: Window)
    requires WellFormed(j, w) && w.accepted < j.total && WindowFits(w) && env != []
    requires TurnChunks(j, w, env[0]).Continue? && v == TurnChunks(j, w, env[0]).w
    ensures WellFormed(j, v) && v.accepted < j.total && WindowFits(v)
    ensures WindowAfter(j, w, env) == WindowAfter(j, v, env[1..])
    ensures CleanSince(j, w, env, w.streak) == CleanSince(j, v, env[1..], v.streak)
  {
    TurnKeepsWindow(j, w, env[0]);
    TurnFits(j, w, env[0]);
  }

  // In every run the window is open exactly after three clean acknowledgements
  // in a row, and a retransmission closes it.
  lemma {:induction false} OpensOnCleanAcks(j: Job, w: Window, env: seq<Obs>)
    requires WellFormed(j, w) && w.accepted < j.total && WindowFits(w)
    requires WindowAfter(j, w, env).Some?
    ensures WindowAfter(j, w, env).value.window == if CleanSince(j, w, env, w.streak) >= 3 then 2 else 1
    decreases |env|
  {
    if env != [] {
      var v := TurnChunks(j, w, env[0]).w;
      CleanStep(j, w, env, v);
      OpensOnCleanAcks(j, v, env[1..]);
    }
  }
}
