// What the chunk loop puts on the wire: a lost chunk is sent again, the flight
// records what was sent and when, and the window opens on clean ACKs alone
// (internal/masso/upload.go).
module ChunkResends {
  import opened Bytes
  import opened Wire
  import opened Controller
  import opened UploadClient
  import opened ChunkLoop
  import opened ChunkTiming

  // No ACK waits, no chunk may be added, the stall deadline is ahead, and the
  // oldest chunk has been outstanding for longer than the timeout.
  ghost predicate Overdue(j: Job, w: Window, o: Obs) {
    && o.ack.NoAck? && !(w.next < j.total && w.next < w.accepted + w.window)
    && o.now < w.lastActivity + j.stallTimeout
    && w.flight != [] && o.now - w.flight[0].sentAt > RetransmitTimeout(w.srtt)
  }

  // Then the turn sends the whole flight again, in order, and nothing else.
  lemma OverdueResends(j: Job, w: Window, o: Obs)
    requires WellFormed(j, w) && w.accepted < j.total && Overdue(j, w, o)
    ensures var t := TurnChunks(j, w, o);
            && t.Continue? && |t.sent| == w.next - w.accepted
            && (forall i :: 0 <= i < |t.sent| ==> t.sent[i] == j.packet(w.accepted + i))
            && |t.w.flight| == |w.flight|
            && (forall i :: 0 <= i < |t.w.flight| ==> t.w.flight[i] == Flight(j.packet(w.accepted + i), o.now, true))
            && t.w.(flight := w.flight) == w.(window := 1, streak := 0)
  {
  }

  // How often q is among the packets.
  function Times(sent: seq<Request>, q: Request): nat {
    if sent == [] then 0 else (if sent[0] == q then 1 else 0) + Times(sent[1..], q)
  }

  lemma {:induction false} TimesAdd(a: seq<Request>, b: seq<Request>, q: Request)
    ensures Times(a + b, q) == Times(a, q) + Times(b, q)
  {
    if a == [] {
      assert a + b == b;
    } else {
      assert (a + b)[1..] == a[1..] + b;
      TimesAdd(a[1..], b, q);
    }
  }

  ghost predicate Distinct(j: Job) {
    forall a: nat, b: nat :: a < j.total && b < j.total && j.packet(a) == j.packet(b) ==> a == b
  }

  // A stretch of consecutive chunks holds each of them once.
  lemma {:induction false} TimesInStretch(j: Job, sent: seq<Request>, from: nat, c: nat)
    requires Distinct(j) && c < j.total && from + |sent| <= j.total
    requires forall i :: 0 <= i < |sent| ==> sent[i] == j.packet(from + i)
    ensures Times(sent, j.packet(c)) == if from <= c < from + |sent| then 1 else 0
    decreases |sent|
  {
    if sent != [] {
      assert sent[0] == j.packet(from);
      assert forall i :: 0 <= i < |sent| - 1 ==> sent[1..][i] == j.packet(from + 1 + i);
      TimesInStretch(j, sent[1..], from + 1, c);
    }
  }

  // What a turn that reads no ACK sends: the next chunk, the whole flight, or
  // nothing.
  lemma TurnSends(j: Job, w: Window, o: Obs)
    requires WellFormed(j, w) && w.accepted < j.total && o.ack.NoAck? && TurnChunks(j, w, o).Continue?
    ensures var t := TurnChunks(j, w, o);
            && t.w.accepted == w.accepted
            && if CanFill(j, w) then t.sent == [j.packet(w.next)] && t.w.next == w.next + 1
               else
                 && t.w.next == w.next && w.flight != []
                 && if Overdue(j, w, o) then
                      && |t.sent| == w.next - w.accepted
                      && forall i :: 0 <= i < |t.sent| ==> t.sent[i] == j.packet(w.accepted + i)
                    else t.sent == []
  {
    if !CanFill(j, w) {
      FlightNotEmpty(j, w);
      if Resends(j, w, o) { OverdueResends(j, w, o); }
    }
  }

  // In silence each round puts the oldest unacknowledged chunk on the wire once
  // more, and nothing else does once it has been sent.
  lemma {:induction false} SilenceResends(j: Job, w: Window, env: seq<Obs>)
    requires Distinct(j) && WellFormed(j, w) && w.accepted < w.next && w.accepted < j.total && Silent(env)
    ensures Times(Run(j, w, env).1, j.packet(w.accepted)) == Rounds(j, w, env)
    decreases |env|
  {
    if env != [] {
      var t := TurnChunks(j, w, env[0]);
      if t.Continue? {
        TurnKeepsWindow(j, w, env[0]);
        assert Silent(env[1..]);
        SilenceResends(j, t.w, env[1..]);
        TurnSends(j, w, env[0]);
        TimesInStretch(j, t.sent, if CanFill(j, w) then w.next else w.accepted, w.accepted);
        TimesAdd(t.sent, Run(j, t.w, env[1..]).1, j.packet(w.accepted));
      }
    }
  }

  // The same from the start: the chunk is sent, and then once more a round.
  lemma SilenceResendsFirst(j: Job, startAckAt: int, env: seq<Obs>)
    requires Distinct(j) && j.total > 0 && Silent(env)
    requires env != [] && env[0].read >= j.size(0) && !env[0].readErr.OtherError?
    ensures WellFormed(j, InitialWindow(startAckAt))
    ensures Times(Run(j, InitialWindow(startAckAt), env).1, j.packet(0)) ==
            1 + Rounds(j, InitialWindow(startAckAt), env)
  {
    var w := InitialWindow(startAckAt);
    var t := TurnChunks(j, w, env[0]);
    TurnKeepsWindow(j, w, env[0]);
    assert Silent(env[1..]) && t.sent == [j.packet(0)];
    SilenceResends(j, t.w, env[1..]);
    TimesAdd(t.sent, Run(j, t.w, env[1..]).1, j.packet(0));
  }

  // The first chunk goes out alone, and again once it has been out for longer than
  // 120 ms, twice the estimate the loop begins with; until then the loop waits.
  lemma FirstRetransmission(j: Job, startAckAt: int, first: Obs, second: Obs)
    requires j.total > 0 && first.read >= j.size(0) && !first.readErr.OtherError?
    requires second.ack.NoAck? && second.now < startAckAt + j.stallTimeout
    ensures WellFormed(j, InitialWindow(startAckAt))
    ensures Run(j, InitialWindow(startAckAt), [first, second]).1 ==
            if second.now - first.now > 120_000_000 then [j.packet(0), j.packet(0)] else [j.packet(0)]
  {
    var w := InitialWindow(startAckAt);
    var t := TurnChunks(j, w, first);
    TurnKeepsWindow(j, w, first);
    var v := TurnChunks(j, t.w, second);
    TurnKeepsWindow(j, t.w, second);
    TimeoutClamped(w.srtt);
    if Overdue(j, t.w, second) {
      OverdueResends(j, t.w, second);
      assert v.sent == [j.packet(0)];
    }
    assert [first, second][1..] == [second] && [second][1..] == [];
    assert Run(j, v.w, []) == (None, []);
  }

  // --- The flight and the wire -------------------------------------------------

  datatype Departure = Departure(pkt: Request, at: int)

  function Stamped(sent: seq<Request>, at: int): (r: seq<Departure>)
    ensures |r| == |sent| && forall i :: 0 <= i < |r| ==> r[i] == Departure(sent[i], at)
  {
    seq(|sent|, i requires 0 <= i < |sent| => Departure(sent[i], at))
  }

  // What the loop sends, and when.
  function Departures(j: Job, w: Window, env: seq<Obs>): seq<Departure>
    requires WellFormed(j, w) && w.accepted < j.total
    decreases |env|
  {
    if env == [] then []
    else
      var t := TurnChunks(j, w, env[0]);
      if t.Return? then []
      else
        TurnKeepsWindow(j, w, env[0]);
        Stamped(t.sent, env[0].now) + Departures(j, t.w, env[1..])
  }

  function Count(log: seq<Departure>, q: Request): nat {
    if log == [] then 0 else Count(log[..|log| - 1], q) + if log[|log| - 1].pkt == q then 1 else 0
  }

  // When q was sent last.
  function LastSent(log: seq<Departure>, q: Request): Option<int> {
    if log == [] then None
    else if log[|log| - 1].pkt == q then Some(log[|log| - 1].at)
    else LastSent(log[..|log| - 1], q)
  }

  // The flight tells when each of its chunks was sent last, and whether more than
  // once; what lies beyond it has never been sent.
  ghost predicate Records(j: Job, w: Window, log: seq<Departure>) {
    && (forall i :: 0 <= i < |w.flight| ==> RecordsChunk(w.flight[i], log, j.packet(w.accepted + i)))
    && (forall c: nat :: w.next <= c < j.total ==> Count(log, j.packet(c)) == 0)
  }

  ghost predicate RecordsChunk(f: Flight, log: seq<Departure>, q: Request) {
    && Some(f.sentAt) == LastSent(log, q) && Count(log, q) >= 1
    && (f.retransmitted <==> Count(log, q) > 1)
  }

  lemma OneLogged(log: seq<Departure>, sent: seq<Request>, last: Request, at: int, q: Request)
    ensures var before, more := log + Stamped(sent, at), log + Stamped(sent + [last], at);
            && Count(more, q) == Count(before, q) + (if last == q then 1 else 0)
            && LastSent(more, q) == if last == q then Some(at) else LastSent(before, q)
  {
    var before, more := log + Stamped(sent, at), log + Stamped(sent + [last], at);
    assert more[..|more| - 1] == before && more[|more| - 1] == Departure(last, at);
  }

  // After a stretch of consecutive chunks has gone out.
  lemma {:induction false} StretchLogged(j: Job, log: seq<Departure>, sent: seq<Request>, at: int, from: nat, c: nat)
    requires Distinct(j) && c < j.total && from + |sent| <= j.total
    requires forall i :: 0 <= i < |sent| ==> sent[i] == j.packet(from + i)
    ensures var more := log + Stamped(sent, at);
            var q := j.packet(c);
            && Count(more, q) == Count(log, q) + (if from <= c < from + |sent| then 1 else 0)
            && LastSent(more, q) == if from <= c < from + |sent| then Some(at) else LastSent(log, q)
    decreases |sent|
  {
    if sent == [] {
      assert log + Stamped(sent, at) == log;
    } else {
      var init, last := sent[..|sent| - 1], sent[|sent| - 1];
      assert sent == init + [last] && last == j.packet(from + |init|);
      StretchLogged(j, log, init, at, from, c);
      OneLogged(log, init, last, at, j.packet(c));
    }
  }

  // The next chunk has gone out.
  lemma OneMoreOut(j: Job, w: Window, v: Window, log: seq<Departure>, sent: seq<Request>, at: int)
    requires Distinct(j) && WellFormed(j, w) && w.next < j.total && Records(j, w, log)
    requires sent == [j.packet(w.next)] && v.accepted == w.accepted && v.next == w.next + 1
    requires v.flight == w.flight + [Flight(j.packet(w.next), at, false)]
    ensures Records(j, v, log + Stamped(sent, at))
  {
    var more := log + Stamped(sent, at);
    forall i | 0 <= i < |v.flight| ensures RecordsChunk(v.flight[i], more, j.packet(v.accepted + i)) {
      StretchLogged(j, log, sent, at, w.next, w.accepted + i);
      if i < |w.flight| { assert RecordsChunk(w.flight[i], log, j.packet(w.accepted + i)); }
    }
    forall c: nat | v.next <= c < j.total ensures Count(more, j.packet(c)) == 0 {
      StretchLogged(j, log, sent, at, w.next, c);
    }
  }

  lemma FillOut(j: Job, w: Window, o: Obs)
    requires WellFormed(j, w) && w.accepted < j.total && CanFill(j, w) && TurnChunks(j, w, o).Continue?
    ensures var t := TurnChunks(j, w, o);
            && t.sent == [j.packet(w.next)] && t.w.accepted == w.accepted && t.w.next == w.next + 1
            && t.w.flight == w.flight + [Flight(j.packet(w.next), o.now, false)]
  {
  }

  // The whole flight has gone out again.
  lemma FlightAgain(j: Job, w: Window, v: Window, log: seq<Departure>, sent: seq<Request>, at: int)
    requires Distinct(j) && WellFormed(j, w) && Records(j, w, log)
    requires v.accepted == w.accepted && v.next == w.next && |v.flight| == |w.flight| == |sent|
    requires forall i :: 0 <= i < |sent| ==> sent[i] == j.packet(w.accepted + i)
    requires forall i :: 0 <= i < |v.flight| ==> v.flight[i].sentAt == at && v.flight[i].retransmitted
    ensures Records(j, v, log + Stamped(sent, at))
  {
    var more := log + Stamped(sent, at);
    forall i | 0 <= i < |v.flight| ensures RecordsChunk(v.flight[i], more, j.packet(v.accepted + i)) {
      StretchLogged(j, log, sent, at, w.accepted, w.accepted + i);
      assert RecordsChunk(w.flight[i], log, j.packet(w.accepted + i));
    }
    forall c: nat | v.next <= c < j.total ensures Count(more, j.packet(c)) == 0 {
      StretchLogged(j, log, sent, at, w.accepted, c);
    }
  }

  // The window has shed its first n chunks.
  predicate Sheds(w: Window, v: Window, n: nat) {
    && n <= |w.flight| && v.accepted == w.accepted + n && v.next == w.next && v.flight == w.flight[n..]
  }

  // A turn that sends nothing leaves a flight without its first n chunks.
  lemma RestRecords(j: Job, w: Window, r: Window, n: nat, log: seq<Departure>)
    requires WellFormed(j, w) && Records(j, w, log) && Sheds(w, r, n)
    ensures Records(j, r, log)
  {
    forall i | 0 <= i < |r.flight| ensures RecordsChunk(r.flight[i], log, j.packet(r.accepted + i)) {
      assert RecordsChunk(w.flight[n + i], log, j.packet(w.accepted + (n + i)));
    }
  }

  lemma FoldSheds(j: Job, w: Window, result: byte, accepted: nat, now: int) returns (n: nat)
    requires |w.flight| == w.next - w.accepted && FoldAck(j, w, result, accepted, now).Continue?
    ensures var t := FoldAck(j, w, result, accepted, now); t.sent == [] && Sheds(w, t.w, n)
  {
    n := if w.accepted < accepted <= w.next then accepted - w.accepted else 0;
    assert w.flight[0..] == w.flight;
  }

  lemma AckSheds(j: Job, w: Window, o: Obs) returns (n: nat)
    requires WellFormed(j, w) && w.accepted < j.total && !CanFill(j, w) && !Overdue(j, w, o)
    requires TurnChunks(j, w, o).Continue?
    ensures var t := TurnChunks(j, w, o); t.sent == [] && Sheds(w, t.w, n)
  {
    match o.ack
    case GotAck(result, accepted) => n := FoldSheds(j, w, result, accepted, o.now);
    case NoAck =>
      FlightNotEmpty(j, w);
      n := 0;
      assert w.flight[0..] == w.flight;
  }

  lemma TurnRecords(j: Job, w: Window, o: Obs, log: seq<Departure>)
    requires Distinct(j) && WellFormed(j, w) && w.accepted < j.total && Records(j, w, log)
    requires TurnChunks(j, w, o).Continue?
    ensures var t := TurnChunks(j, w, o); Records(j, t.w, log + Stamped(t.sent, o.now))
  {
    if CanFill(j, w) {
      FillOut(j, w, o);
      OneMoreOut(j, w, TurnChunks(j, w, o).w, log, TurnChunks(j, w, o).sent, o.now);
    } else if Overdue(j, w, o) {
      OverdueResends(j, w, o);
      FlightAgain(j, w, TurnChunks(j, w, o).w, log, TurnChunks(j, w, o).sent, o.now);
    } else {
      var n := AckSheds(j, w, o);
      var t := TurnChunks(j, w, o);
      RestRecords(j, w, t.w, n, log);
      assert log + Stamped(t.sent, o.now) == log;
    }
  }

  lemma DeparturesStep(j: Job, w: Window, env: seq<Obs>, v: Window, out: seq<Departure>)
    requires WellFormed(j, w) && w.accepted < j.total && env != []
    requires var t := TurnChunks(j, w, env[0]); t.Continue? && t.w == v && out == Stamped(t.sent, env[0].now)
    ensures WellFormed(j, v) && v.accepted < j.total
    ensures Departures(j, w, env) == out + Departures(j, v, env[1..])
    ensures WindowAfter(j, w, env) == WindowAfter(j, v, env[1..])
  {
    TurnKeepsWindow(j, w, env[0]);
  }

  lemma {:induction false} FlightRecords(j: Job, w: Window, env: seq<Obs>, log: seq<Departure>)
    requires Distinct(j) && WellFormed(j, w) && w.accepted < j.total && Records(j, w, log)
    requires WindowAfter(j, w, env).Some?
    ensures Records(j, WindowAfter(j, w, env).value, log + Departures(j, w, env))
    decreases |env|
  {
    if env == [] {
      assert log + [] == log;
    } else {
      var t := TurnChunks(j, w, env[0]);
      var out := Stamped(t.sent, env[0].now);
      TurnRecords(j, w, env[0], log);
      DeparturesStep(j, w, env, t.w, out);
      FlightRecords(j, t.w, env[1..], log + out);
      Regroup(log, out, Departures(j, t.w, env[1..]));
    }
  }

  lemma Regroup<T>(a: seq<T>, b: seq<T>, c: seq<T>)
    ensures a + (b + c) == (a + b) + c
  {
  }

  // At every moment of every run, what the loop believes of the chunks in flight
  // is what has gone out.
  lemma FlightIsWhatWasSent(j: Job, startAckAt: int, env: seq<Obs>)
    requires Distinct(j) && j.total > 0
    ensures WellFormed(j, InitialWindow(startAckAt))
    ensures var v := WindowAfter(j, InitialWindow(startAckAt), env);
            v.Some? ==> Records(j, v.value, Departures(j, InitialWindow(startAckAt), env))
  {
    var w := InitialWindow(startAckAt);
    if WindowAfter(j, w, env).Some? { FlightRecords(j, w, env, []); }
    assert [] + Departures(j, w, env) == Departures(j, w, env);
  }

  // And that is what the loop sends.
  lemma {:induction false} DeparturesAreSends(j: Job, w: Window, env: seq<Obs>)
    requires WellFormed(j, w) && w.accepted < j.total
    ensures |Departures(j, w, env)| == |Run(j, w, env).1|
    ensures forall i :: 0 <= i < |Departures(j, w, env)| ==> Departures(j, w, env)[i].pkt == Run(j, w, env).1[i]
    decreases |env|
  {
    if env != [] && TurnChunks(j, w, env[0]).Continue? {
      TurnKeepsWindow(j, w, env[0]);
      DeparturesAreSends(j, TurnChunks(j, w, env[0]).w, env[1..]);
    }
  }

  // Chunks of an upload are told apart by their numbers.
  lemma UploadDistinct(u: Upload)
    ensures Distinct(u.Sending())
  {
    forall a: nat, b: nat | u.Sending().packet(a) == u.Sending().packet(b) ensures a == b {
      assert u.ChunkPacket(a) == u.ChunkPacket(b);
    }
  }
}
