// Progress: while the transfer has not been restarted on the controller, one
// loss-free delivery of the flight and of its last ACK moves the window on, so
// at most as many such rounds as there are chunks finish the file; and when all
// that is under way is lost, the next retransmission puts the flight back.
module UploadProgress {
  import opened Bytes
  import opened FileNames
  import opened Wire
  import opened Controller
  import opened UploadClient
  import opened UploadProtocol
  import opened ChunkResends

  // Client and controller are in the same transfer, the controller no further
  // back than the client believes and no further on than it has sent. What has
  // been acknowledged may be lost, the chunks in flight can still be delivered.
  ghost predicate Live(u: Upload, s: System) {
    && u.Valid() && u.Size() > 0 && PhaseOk(u, s.phase) && s.phase.Transferring?
    && (forall q :: q in s.sent ==> q == u.StartPacket() || SentChunk(u, q, s.phase.w.next))
    && Serving(u, s.ctl) && !s.ctl.canceled
    && (s.ctl.uploading || s.ctl.acceptedCount == u.Total())
    && s.phase.w.accepted <= s.ctl.acceptedCount <= s.phase.w.next
    && (forall i: nat :: s.phase.w.accepted <= i < s.phase.w.next ==> u.ChunkPacket(i) in s.sent)
    && (forall a: nat :: ChunkAck(CHUNK_OK, a) in s.replies ==> a <= s.ctl.acceptedCount)
  }

  ghost predicate SentChunk(u: Upload, q: Request, next: nat) {
    exists i: nat :: i < next && q == u.ChunkPacket(i)
  }

  // The step that restarts a transfer the controller has completed.
  ghost predicate Restarts(u: Upload, s: System, step: Step) {
    step == Deliver(u.StartPacket()) && s.begun && !s.ctl.uploading
  }

  // --- Live is where every transfer without a restart stays -----------------

  ghost predicate RestartFree(u: Upload, s: System, steps: seq<Step>)
    requires Execution(u, s, steps)
    decreases |steps|
  {
    steps == [] || (!Restarts(u, s, steps[0]) && RestartFree(u, Apply(u, s, steps[0]), steps[1..]))
  }

  // Before the transfer: no chunk has been sent, and a transfer the start has
  // begun is still empty.
  ghost predicate Waiting(u: Upload, s: System) {
    && u.Valid() && u.Size() > 0 && s.phase.Opening? && s.sent == {u.StartPacket()}
    && (forall a: nat :: ChunkAck(CHUNK_OK, a) !in s.replies)
    && (if s.begun then
          Serving(u, s.ctl) && s.ctl.uploading && s.ctl.acceptedCount == 0 && !s.ctl.canceled
        else
          s.replies == {} && !Refuses(s.ctl, u.Path()))
  }

  ghost predicate OnCourse(u: Upload, s: System) {
    && (s.phase.Opening? ==> Waiting(u, s))
    && (s.phase.Transferring? ==> Live(u, s) && s.begun && AllSent(u, s))
  }

  // Every chunk up to next has been sent.
  ghost predicate AllSent(u: Upload, s: System)
    requires s.phase.Transferring?
  {
    forall i: nat :: i < s.phase.w.next ==> u.ChunkPacket(i) in s.sent
  }

  lemma WaitingStep(u: Upload, s: System, step: Step)
    requires Waiting(u, s) && Enabled(u, s, step) && !Restarts(u, s, step)
    ensures OnCourse(u, Apply(u, s, step))
  {
    var t := Apply(u, s, step);
    ChunkBounds(u, 0);
    match step
    case Deliver(q) =>
      assert t.replies == s.replies + {OnStart(s.ctl, u.Size(), u.Path()).1};
      assert u.content[..u.Offset(0)] == [];
    case TurnOpen(o) =>
      if t.phase.Opening? {
        assert t.sent == {u.StartPacket()};
      }
    case TurnTransfer(_) =>
    case TurnClean(_) =>
  }

  // Without a restart, every state in which chunks are being sent is live.
  lemma {:induction false} LiveThroughout(u: Upload, s: System, steps: seq<Step>)
    requires OnCourse(u, s) && Execution(u, s, steps) && RestartFree(u, s, steps)
    ensures OnCourse(u, Final(u, s, steps))
    decreases |steps|
  {
    if steps != [] {
      var t := Apply(u, s, steps[0]);
      if s.phase.Opening? {
        WaitingStep(u, s, steps[0]);
      } else if s.phase.Transferring? {
        LiveStep(u, s, steps[0]);
      }
      LiveThroughout(u, t, steps[1..]);
    }
  }

  lemma LiveStep(u: Upload, s: System, step: Step)
    requires Live(u, s) && s.begun && Enabled(u, s, step) && !Restarts(u, s, step)
    ensures var t := Apply(u, s, step); t.phase.Transferring? ==> Live(u, t) && (AllSent(u, s) ==> AllSent(u, t))
  {
    ChunkBounds(u, 0);
    match step
    case Deliver(q) =>
      if q == u.StartPacket() {
        assert Apply(u, s, step).replies == s.replies + {StartAck(START_ALREADY_STARTED)};
      } else {
        var i: nat :| i < s.phase.w.next && q == u.ChunkPacket(i);
        LiveDeliver(u, s, i);
      }
    case TurnTransfer(o) => LiveTransfer(u, s, o);
    case TurnClean(at) =>
    case TurnOpen(o) =>
  }

  lemma LiveTransfer(u: Upload, s: System, o: Obs)
    requires Live(u, s) && Enabled(u, s, TurnTransfer(o))
    ensures var t := Apply(u, s, TurnTransfer(o));
            t.phase.Transferring? ==> Live(u, t) && (AllSent(u, s) ==> AllSent(u, t))
  {
    var j, w := u.Sending(), s.phase.w;
    var turn := TurnChunks(j, w, o);
    TurnKeepsWindow(j, w, o);
    if turn.Continue? {
      SentUpToNext(j, w, o);
      AcceptedFromAck(j, w, o);
      LiveAfterTurn(u, s, turn.w, turn.sent, o.now);
    }
  }

  // The window has moved to v, and these packets have been sent.
  lemma LiveAfterTurn(u: Upload, s: System, v: Window, packets: seq<Request>, now: int)
    requires Live(u, s) && WellFormed(u.Sending(), v) && v.accepted < u.Total()
    requires v.next == s.phase.w.next || (v.next == s.phase.w.next + 1 && u.Sending().packet(s.phase.w.next) in packets)
    requires ChunksBelow(u.Sending(), packets, v.next) && s.phase.w.accepted <= v.accepted <= s.ctl.acceptedCount
    ensures var t := s.(phase := Transferring(v), sent := s.sent + (set q | q in packets), now := now);
            Live(u, t) && (AllSent(u, s) ==> AllSent(u, t))
  {
    var j, sent := u.Sending(), s.sent + (set q | q in packets);
    forall i: nat | i < v.next && (i >= s.phase.w.next || u.ChunkPacket(i) in s.sent) ensures u.ChunkPacket(i) in sent {
      assert j.packet(i) == u.ChunkPacket(i);
    }
    forall q | q in sent && q != u.StartPacket() ensures SentChunk(u, q, v.next) {
      if q in packets {
        var i: nat :| i < v.next && q == j.packet(i);
        assert q == u.ChunkPacket(i);
      } else {
        var i: nat :| i < s.phase.w.next && q == u.ChunkPacket(i);
        assert i < v.next;
      }
    }
  }

  // A turn that sends a chunk sends the one at next; one that advances does so
  // to the count of the ACK it read.
  lemma SentUpToNext(j: Job, w: Window, o: Obs)
    requires WellFormed(j, w) && w.accepted < j.total && TurnChunks(j, w, o).Continue?
    ensures var t := TurnChunks(j, w, o);
            t.w.next == w.next || (t.w.next == w.next + 1 && j.packet(w.next) in t.sent)
  {
    if !CanFill(j, w) { FlightNotEmpty(j, w); }
  }

  lemma AcceptedFromAck(j: Job, w: Window, o: Obs)
    requires WellFormed(j, w) && w.accepted < j.total && TurnChunks(j, w, o).Continue?
    ensures var t := TurnChunks(j, w, o);
            t.w.accepted == w.accepted || o.ack == GotAck(CHUNK_OK, t.w.accepted)
  {
    if !CanFill(j, w) { FlightNotEmpty(j, w); }
  }

  lemma LiveDeliver(u: Upload, s: System, i: nat)
    requires Live(u, s) && i < s.phase.w.next && u.ChunkPacket(i) in s.sent
    ensures Enabled(u, s, Deliver(u.ChunkPacket(i)))
    ensures var t := Apply(u, s, Deliver(u.ChunkPacket(i)));
            && t.phase == s.phase && t.sent == s.sent && t.now == s.now
            && t.ctl.acceptedCount == (if i == s.ctl.acceptedCount then i + 1 else s.ctl.acceptedCount)
            && ChunkAck(CHUNK_OK, t.ctl.acceptedCount) in t.replies
            && Live(u, t)
  {
    var t := Apply(u, s, Deliver(u.ChunkPacket(i)));
    assert u.Total() < UINT32_LIMIT;
    ChunkBounds(u, i);
    if i == s.ctl.acceptedCount {
      PrefixGrows(u, i);
      assert s.ctl.uploading;
    }
    assert t.replies == s.replies + {ChunkAck(CHUNK_OK, t.ctl.acceptedCount)};
  }

  // --- Rounds ----------------------------------------------------------------

  // How many turns of a run read an ACK.
  function AcksRead(steps: seq<Step>): nat {
    if steps == [] then 0
    else (if steps[0].TurnTransfer? && steps[0].o.ack.GotAck? then 1 else 0) + AcksRead(steps[1..])
  }

  lemma Prepended(u: Upload, s: System, step: Step, rest: seq<Step>, all: seq<Step>)
    requires Enabled(u, s, step) && Execution(u, Apply(u, s, step), rest) && all == [step] + rest
    ensures Execution(u, s, all) && Final(u, s, all) == Final(u, Apply(u, s, step), rest)
    ensures AcksRead(all) == AcksRead(rest) + if step.TurnTransfer? && step.o.ack.GotAck? then 1 else 0
  {
    assert all[0] == step && all[1..] == rest;
  }

  lemma {:induction false} Sequence(u: Upload, s: System, a: seq<Step>, b: seq<Step>)
    requires Execution(u, s, a) && Execution(u, Final(u, s, a), b)
    ensures Execution(u, s, a + b) && Final(u, s, a + b) == Final(u, Final(u, s, a), b)
    ensures AcksRead(a + b) == AcksRead(a) + AcksRead(b)
    decreases |a|
  {
    if a == [] {
      assert a + b == b;
    } else {
      var step, rest := a[0], a[1..];
      HeadAndTail(a, b);
      Sequence(u, Apply(u, s, step), rest, b);
      Prepended(u, s, step, rest + b, a + b);
    }
  }

  lemma HeadAndTail<T>(a: seq<T>, b: seq<T>)
    requires a != []
    ensures a + b == [a[0]] + (a[1..] + b)
  {
  }

  lemma One(u: Upload, s: System, step: Step)
    requires Enabled(u, s, step)
    ensures Execution(u, s, [step]) && Final(u, s, [step]) == Apply(u, s, step)
    ensures AcksRead([step]) == if step.TurnTransfer? && step.o.ack.GotAck? then 1 else 0
  {
    assert [step][1..] == [];
  }

  // Delivering chunks i to next - 1 once each, in order, brings the controller
  // level with what the client has sent.
  lemma {:induction false} DeliverFlight(u: Upload, s: System, i: nat) returns (steps: seq<Step>)
    requires Live(u, s) && s.phase.w.accepted <= i <= s.phase.w.next && i <= s.ctl.acceptedCount
    ensures Execution(u, s, steps) && AcksRead(steps) == 0 && |steps| == s.phase.w.next - i
    ensures var t := Final(u, s, steps);
            && t.phase == s.phase && t.now == s.now && Live(u, t)
            && t.ctl.acceptedCount == s.phase.w.next
            && (i < s.phase.w.next ==> ChunkAck(CHUNK_OK, s.phase.w.next) in t.replies)
    decreases s.phase.w.next - i
  {
    steps := [];
    if i < s.phase.w.next {
      LiveDeliver(u, s, i);
      var step := Deliver(u.ChunkPacket(i));
      var t := Apply(u, s, step);
      var rest := DeliverFlight(u, t, i + 1);
      One(u, s, step);
      Sequence(u, s, [step], rest);
      steps := [step] + rest;
    }
  }

  // The client fills its window without waiting for anything.
  lemma {:induction false} FillUp(u: Upload, s: System) returns (steps: seq<Step>)
    requires Live(u, s)
    ensures Execution(u, s, steps) && AcksRead(steps) == 0
    ensures var t := Final(u, s, steps);
            && Live(u, t) && !CanFill(u.Sending(), t.phase.w) && t.phase.w.accepted == s.phase.w.accepted
    decreases u.Total() - s.phase.w.next
  {
    steps := [];
    var j, w := u.Sending(), s.phase.w;
    if CanFill(j, w) {
      var step := TurnTransfer(Obs(s.now, j.size(w.next), NoError, NoAck));
      var t := Apply(u, s, step);
      LiveTransfer(u, s, step.o);
      var rest := FillUp(u, t);
      One(u, s, step);
      Sequence(u, s, [step], rest);
      steps := [step] + rest;
    }
  }

  // Reading the ACK of everything sent.
  lemma AllAcked(u: Upload, t: System) returns (step: Step)
    requires Live(u, t) && !CanFill(u.Sending(), t.phase.w) && ChunkAck(CHUNK_OK, t.phase.w.next) in t.replies
    ensures Enabled(u, t, step) && step.TurnTransfer? && step.o.ack.GotAck?
    ensures var r := Apply(u, t, step);
            || r.phase == Finished(Nil)
            || (Live(u, r) && r.phase.w.accepted == t.phase.w.next > t.phase.w.accepted)
  {
    FlightNotEmpty(u.Sending(), t.phase.w);
    step := TurnTransfer(Obs(t.now, 0, NoError, GotAck(CHUNK_OK, t.phase.w.next)));
    LiveTransfer(u, t, step.o);
  }

  // One round: the flight delivered, its last ACK read. The client's count
  // rises to everything it had sent, or the upload is complete.
  lemma Round(u: Upload, s: System) returns (steps: seq<Step>)
    requires Live(u, s) && !CanFill(u.Sending(), s.phase.w)
    ensures Execution(u, s, steps) && AcksRead(steps) == 1
    ensures |steps| == |s.phase.w.flight| + 1 <= MAX_WINDOW + 1
    ensures var t := Final(u, s, steps);
            || t.phase == Finished(Nil)
            || (Live(u, t) && t.phase.w.accepted == s.phase.w.next > s.phase.w.accepted)
  {
    FlightNotEmpty(u.Sending(), s.phase.w);
    var deliveries := DeliverFlight(u, s, s.phase.w.accepted);
    var t := Final(u, s, deliveries);
    var step := AllAcked(u, t);
    One(u, t, step);
    Sequence(u, s, deliveries, [step]);
    steps := deliveries + [step];
  }

  // From any live state, at most one round for each chunk not yet counted
  // finishes the file.
  lemma {:induction false} RoundsFinish(u: Upload, s: System) returns (steps: seq<Step>)
    requires Live(u, s)
    ensures Execution(u, s, steps)
    ensures Final(u, s, steps).phase == Finished(Nil)
    ensures AcksRead(steps) <= u.Total() - s.phase.w.accepted
    decreases u.Total() - s.phase.w.accepted
  {
    var filling := FillUp(u, s);
    var t := Final(u, s, filling);
    var round := Round(u, t);
    Sequence(u, s, filling, round);
    steps := filling + round;
    var r := Final(u, t, round);
    if r.phase != Finished(Nil) {
      var rest := RoundsFinish(u, r);
      Sequence(u, s, steps, rest);
      steps := steps + rest;
    }
  }

  // However a restart-free upload has fared so far, if it is still sending
  // chunks it can be finished in that many rounds.
  lemma AlwaysFinishable(u: Upload, c: Ctl, s: System, soFar: seq<Step>) returns (rest: seq<Step>)
    requires u.Valid() && u.Size() > 0 && !Refuses(c, u.Path()) && Init(u, c, s)
    requires Execution(u, s, soFar) && RestartFree(u, s, soFar)
    requires Final(u, s, soFar).phase.Transferring?
    ensures Execution(u, Final(u, s, soFar), rest)
    ensures Final(u, Final(u, s, soFar), rest).phase == Finished(Nil)
    ensures AcksRead(rest) <= u.Total() - Final(u, s, soFar).phase.w.accepted
    ensures Stored(u, Final(u, Final(u, s, soFar), rest).ctl)
  {
    var connected, busy, canceled :| (s.phase, s.sent) == Enter(u, s.now, connected, busy, canceled);
    EnterCases(u, s.now, connected, busy, canceled);
    LiveThroughout(u, s, soFar);
    rest := RoundsFinish(u, Final(u, s, soFar));
    Sequence(u, s, soFar, rest);
    NilMeansStored(u, c, s, soFar + rest);
  }

  // --- A network that forgets --------------------------------------------------

  // Everything under way is lost.
  function Lost(s: System): System {
    s.(sent := {}, replies := {})
  }

  // The chunks in flight, and nothing else, are on the wire.
  ghost predicate OnlyFlight(u: Upload, s: System, w: Window) {
    && (forall i: nat :: w.accepted <= i < w.next ==> u.ChunkPacket(i) in s.sent)
    && (forall q :: q in s.sent ==> exists i: nat :: w.accepted <= i < w.next && q == u.ChunkPacket(i))
  }

  lemma ResendFills(u: Upload, s: System, o: Obs)
    requires PhaseOk(u, s.phase) && s.phase.Transferring? && Overdue(u.Sending(), s.phase.w, o) && s.now <= o.now
    ensures Enabled(u, Lost(s), TurnTransfer(o))
    ensures OnlyFlight(u, Apply(u, Lost(s), TurnTransfer(o)), s.phase.w)
  {
    var j, w := u.Sending(), s.phase.w;
    var turn, t := TurnChunks(j, w, o), Apply(u, Lost(s), TurnTransfer(o));
    OverdueResends(j, w, o);
    assert t.sent == set q | q in turn.sent;
    forall i: nat | w.accepted <= i < w.next ensures u.ChunkPacket(i) in t.sent {
      assert turn.sent[i - w.accepted] == j.packet(i);
    }
    forall q | q in t.sent ensures exists i: nat :: w.accepted <= i < w.next && q == u.ChunkPacket(i) {
      var k :| 0 <= k < |turn.sent| && q == turn.sent[k];
      assert q == u.ChunkPacket(w.accepted + k);
    }
  }

  lemma LiveWithFlight(u: Upload, s: System, t: System, w: Window)
    requires Live(u, s) && s.phase.w == w && t.ctl == s.ctl && t.replies == {}
    requires PhaseOk(u, t.phase) && t.phase.Transferring?
    requires t.phase.w.accepted == w.accepted && t.phase.w.next == w.next
    requires OnlyFlight(u, t, w)
    ensures Live(u, t)
  {
  }

  // If all that was sent before a retransmission is lost, what that turn alone
  // sends is the whole flight, and leaves the transfer live.
  lemma ResendRevives(u: Upload, s: System, o: Obs)
    requires Live(u, s) && Overdue(u.Sending(), s.phase.w, o) && s.now <= o.now
    ensures Enabled(u, Lost(s), TurnTransfer(o))
    ensures var t := Apply(u, Lost(s), TurnTransfer(o));
            && Live(u, t) && t.phase.w.accepted == s.phase.w.accepted && t.phase.w.next == s.phase.w.next
            && !CanFill(u.Sending(), t.phase.w) && OnlyFlight(u, t, s.phase.w)
  {
    ResendFills(u, s, o);
    OverdueResends(u.Sending(), s.phase.w, o);
    TurnKeepsWindow(u.Sending(), s.phase.w, o);
    LiveWithFlight(u, s, Apply(u, Lost(s), TurnTransfer(o)), s.phase.w);
  }

  // So delivering what the retransmission sends, and its last ACK, raises the
  // client's count to all it had sent, or completes the upload.
  lemma RoundAfterLoss(u: Upload, s: System, o: Obs) returns (steps: seq<Step>)
    requires Live(u, s) && Overdue(u.Sending(), s.phase.w, o) && s.now <= o.now
    ensures steps != [] && steps[0] == TurnTransfer(o) && Execution(u, Lost(s), steps) && AcksRead(steps) == 1
    ensures |steps| == |s.phase.w.flight| + 2
    ensures var t := Final(u, Lost(s), steps);
            || t.phase == Finished(Nil)
            || (Live(u, t) && t.phase.w.accepted == s.phase.w.next > s.phase.w.accepted)
  {
    ResendRevives(u, s, o);
    var step := TurnTransfer(o);
    var t := Apply(u, Lost(s), step);
    var round := Round(u, t);
    One(u, Lost(s), step);
    Sequence(u, Lost(s), [step], round);
    steps := [step] + round;
  }

  // However a restart-free upload has fared, if then everything under way is
  // lost, the next retransmission lets it be finished, and the file is stored.
  lemma RecoversFromLoss(u: Upload, c: Ctl, s: System, soFar: seq<Step>, v: System, o: Obs) returns (rest: seq<Step>)
    requires u.Valid() && u.Size() > 0 && !Refuses(c, u.Path()) && Init(u, c, s)
    requires Execution(u, s, soFar) && RestartFree(u, s, soFar) && v == Final(u, s, soFar)
    requires v.phase.Transferring? && Overdue(u.Sending(), v.phase.w, o) && v.now <= o.now
    ensures rest != [] && rest[0] == TurnTransfer(o) && Execution(u, Lost(v), rest)
    ensures Final(u, Lost(v), rest).phase == Finished(Nil) && Stored(u, Final(u, Lost(v), rest).ctl)
  {
    var connected, busy, canceled :| (s.phase, s.sent) == Enter(u, s.now, connected, busy, canceled);
    EnterCases(u, s.now, connected, busy, canceled);
    LiveThroughout(u, s, soFar);
    InitInv(u, c, s);
    RunKeeps(u, c, s, soFar);
    ResendRevives(u, v, o);
    var step := TurnTransfer(o);
    var t := Apply(u, Lost(v), step);
    var more := RoundsFinish(u, t);
    One(u, Lost(v), step);
    Sequence(u, Lost(v), [step], more);
    rest := [step] + more;
    FinishedStored(u, c, Lost(v), rest);
  }

  lemma FinishedStored(u: Upload, c: Ctl, s: System, steps: seq<Step>)
    requires UploadProtocol.Inv(u, c, s) && u.Size() > 0 && !Refuses(c, u.Path()) && Execution(u, s, steps)
    requires Final(u, s, steps).phase == Finished(Nil)
    ensures Stored(u, Final(u, s, steps).ctl)
  {
    ChunkBounds(u, 0);
    RunKeeps(u, c, s, steps);
  }
}
