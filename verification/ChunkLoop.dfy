// sendChunks as a loop over whatever the clock, reader and socket answer
// (internal/masso/upload.go), and how it keeps time.
module ChunkLoop {
  import opened Bytes
  import opened Wire
  import opened UploadClient

  // The loop run turn by turn: its result, none while it is still running, and
  // the packets it sent.
  function Run(j: Job, w: Window, env: seq<Obs>): (Option<Outcome>, seq<Request>)
    requires WellFormed(j, w) && w.accepted < j.total
    decreases |env|
  {
    if env == [] then (None, [])
    else
      var t := TurnChunks(j, w, env[0]);
      if t.Return? then (Some(t.outcome), [])
      else
        TurnKeepsWindow(j, w, env[0]);
        var rest := Run(j, t.w, env[1..]);
        (rest.0, t.sent + rest.1)
  }

  // The window the loop has reached, none if it has returned.
  function WindowAfter(j: Job, w: Window, env: seq<Obs>): (r: Option<Window>)
    requires WellFormed(j, w) && w.accepted < j.total
    ensures r.Some? ==> WellFormed(j, r.value) && r.value.accepted < j.total
    decreases |env|
  {
    if env == [] then Some(w)
    else
      var t := TurnChunks(j, w, env[0]);
      if t.Return? then None
      else
        TurnKeepsWindow(j, w, env[0]);
        WindowAfter(j, t.w, env[1..])
  }

  // The loop has made i turns, sent these packets and reached w; the rest of
  // its run is what remains of whole.
  ghost predicate OnTrack(
    j: Job, w: Window, env: seq<Obs>, i: nat, sent: seq<Request>, whole: (Option<Outcome>, seq<Request>))
  {
    && i <= |env| && WellFormed(j, w) && w.accepted < j.total
    && Run(j, w, env[i..]).0 == whole.0
    && sent + Run(j, w, env[i..]).1 == whole.1
  }

  lemma TurnStaysOnTrack(
    j: Job, w: Window, env: seq<Obs>, i: nat, sent: seq<Request>, whole: (Option<Outcome>, seq<Request>))
    requires OnTrack(j, w, env, i, sent, whole) && i < |env|
    ensures var t := TurnChunks(j, w, env[i]);
            && (t.Return? ==> (Some(t.outcome), sent) == whole)
            && (t.Continue? ==> OnTrack(j, t.w, env, i + 1, sent + t.sent, whole))
  {
    TurnKeepsWindow(j, w, env[i]);
    assert env[i..][1..] == env[i + 1..];
    var t := TurnChunks(j, w, env[i]);
    if t.Continue? {
      var rest := Run(j, t.w, env[i + 1..]).1;
      assert sent + (t.sent + rest) == (sent + t.sent) + rest;
    } else {
      assert sent + [] == sent;
    }
  }

  lemma TrackEnds(j: Job, w: Window, env: seq<Obs>, sent: seq<Request>, whole: (Option<Outcome>, seq<Request>))
    requires OnTrack(j, w, env, |env|, sent, whole)
    ensures whole == (None, sent)
  {
    assert env[|env|..] == [];
    assert sent + [] == sent;
  }

  // The body of its loop: one chunk acknowledged.
  method AbsorbOne(w: Window, now: int) returns (v: Window)
    requires w.flight != []
    ensures v == Absorb(w, now)
  {
    var f := w.flight[0];
    v := w.(flight := w.flight[1..], accepted := w.accepted + 1);
    if !f.retransmitted {
      v := v.(srtt := SmoothRTT(v.srtt, now - f.sentAt), streak := v.streak + 1);
      if v.streak >= CLEAN_STREAK_TO_OPEN {
        v := v.(window := MAX_WINDOW);
      }
    }
  }

  // The closure ack: fold one chunk ACK into the window.
  method Ack(j: Job, w: Window, result: byte, newAccepted: nat, now: int) returns (t: ChunkTurn)
    requires |w.flight| == w.next - w.accepted
    ensures t == FoldAck(j, w, result, newAccepted, now)
  {
    var v := w.(lastActivity := now);
    if ChunkAckError(result) != Nil {
      return Return(ChunkAckError(result));
    }
    if newAccepted > v.next || newAccepted <= v.accepted {
      return Continue(v, []);
    }
    ghost var whole := AbsorbMany(v, newAccepted - v.accepted, now);
    while v.accepted < newAccepted
      invariant v.accepted <= newAccepted && newAccepted - v.accepted <= |v.flight|
      invariant AbsorbMany(v, newAccepted - v.accepted, now) == whole
    {
      v := AbsorbOne(v, now);
    }
    if v.accepted == j.total {
      return Return(Nil);
    }
    t := Continue(v, []);
  }

  // The retransmission loop over the flight.
  method Retransmit(w: Window, now: int) returns (v: Window, sent: seq<Request>)
    ensures v == Resend(w, now) && sent == Packets(w.flight)
  {
    var flight := w.flight;
    sent := [];
    for k := 0 to |flight|
      invariant |flight| == |w.flight|
      invariant forall m :: 0 <= m < |flight| ==>
        flight[m] == if m < k then w.flight[m].(sentAt := now, retransmitted := true) else w.flight[m]
      invariant sent == Packets(w.flight)[..k]
    {
      sent := sent + [flight[k].pkt];
      flight := flight[k := flight[k].(sentAt := now, retransmitted := true)];
    }
    v := w.(flight := flight, window := 1, streak := 0);
    assert flight == Resend(w, now).flight;
  }

  // One turn: a pass of the loop that fills the window or, once it is full,
  // the ACK that has arrived or else the two deadlines.
  method Turn(j: Job, w: Window, o: Obs) returns (t: ChunkTurn)
    requires WellFormed(j, w) && w.accepted < j.total
    ensures t == TurnChunks(j, w, o)
  {
    if w.next < j.total && w.next < w.accepted + w.window {
      if o.read < j.size(w.next) || o.readErr == OtherError {
        return Return(Failed(ReadFailed));
      }
      var pkt := j.packet(w.next);
      return Continue(w.(next := w.next + 1, flight := w.flight + [Flight(pkt, o.now, false)]), [pkt]);
    }
    if o.ack.GotAck? {
      t := Ack(j, w, o.ack.result, o.ack.accepted, o.now);
      return;
    }
    FlightNotEmpty(j, w);
    if o.now >= w.lastActivity + j.stallTimeout {
      return Return(Failed(NoResponse));
    }
    if o.now > w.flight[0].sentAt + RetransmitTimeout(w.srtt) {
      var v, sent := Retransmit(w, o.now);
      return Continue(v, sent);
    }
    t := Continue(w, []);
  }

  // The same, as one round of sendChunks.
  method TurnOnTrack(j: Job, w: Window, env: seq<Obs>, i: nat,
                     ghost sent: seq<Request>, ghost whole: (Option<Outcome>, seq<Request>))
    returns (t: ChunkTurn)
    requires OnTrack(j, w, env, i, sent, whole) && i < |env|
    ensures t.Return? ==> (Some(t.outcome), sent) == whole
    ensures t.Continue? ==> OnTrack(j, t.w, env, i + 1, sent + t.sent, whole)
  {
    TurnStaysOnTrack(j, w, env, i, sent, whole);
    t := Turn(j, w, env[i]);
  }

  // The loop of sendChunks, from a window on.
  method Loop(j: Job, start: Window, env: seq<Obs>, ghost whole: (Option<Outcome>, seq<Request>))
    returns (r: Option<Outcome>, sent: seq<Request>)
    requires OnTrack(j, start, env, 0, [], whole)
    ensures (r, sent) == whole
  {
    var w, i := start, 0;
    sent := [];
    while i < |env|
      invariant 0 <= i <= |env| && OnTrack(j, w, env, i, sent, whole)
    {
      var t := TurnOnTrack(j, w, env, i, sent, whole);
      match t
      case Return(outcome) => return Some(outcome), sent;
      case Continue(v, packets) => w, sent := v, sent + packets;
      i := i + 1;
    }
    TrackEnds(j, w, env, sent, whole);
    r := None;
  }

  // sendChunks. env is what its turns observe; the result is none if env ends
  // before the loop does.
  method SendChunks(j: Job, startAckAt: int, env: seq<Obs>) returns (r: Option<Outcome>, sent: seq<Request>)
    requires j.total > 0
    ensures WellFormed(j, InitialWindow(startAckAt))
    ensures (r, sent) == Run(j, InitialWindow(startAckAt), env)
  {
    var w := InitialWindow(startAckAt);
    assert env[0..] == env && [] + Run(j, w, env).1 == Run(j, w, env).1;
    r, sent := Loop(j, w, env, Run(j, w, env));
  }
}
