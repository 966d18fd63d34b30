// Exactly when a nil return can be believed. Upload's own documentation admits
// one blind spot: a name whose transfer is still open or stuck, together with a
// lost start reply. Here that is made into a condition on the controller alone,
// necessary and sufficient.
module UploadExactly {
  import opened Bytes
  import opened FileNames
  import opened Wire
  import opened Controller
  import opened UploadClient
  import opened UploadProtocol

  // What every state the handlers can reach satisfies.
  predicate Consistent(c: Ctl) {
    c.canceled ==> !c.uploading
  }

  lemma HandlersKeepConsistent(c: Ctl, q: Request)
    requires Consistent(c)
    ensures Consistent(Handle(c, q).0)
  {
  }

  // A start for p is refused, yet chunk 0 of another transfer would draw an
  // ACK that counts one chunk.
  predicate Fooled(c: Ctl, p: Text) {
    Refuses(c, p) && !c.canceled && (c.acceptedCount == 1 || (c.uploading && c.acceptedCount == 0))
  }

  // Over every file and every run, nil means stored.
  ghost predicate Trustworthy(c: Ctl, u: Upload) {
    forall content: seq<byte>, s, steps ::
      NilRun(u.(content := content), c, s, steps) ==>
        Stored(u.(content := content), Final(u.(content := content), s, steps).ctl)
  }

  ghost predicate NilRun(u: Upload, c: Ctl, s: System, steps: seq<Step>) {
    && u.Valid() && u.Size() > 0 && Init(u, c, s)
    && Execution(u, s, steps) && Final(u, s, steps).phase == Finished(Nil)
  }

  lemma TrustworthyIffNotFooled(c: Ctl, u: Upload)
    requires Consistent(c) && u.Valid() && u.startRetransmit < u.startTimeout
    ensures Trustworthy(c, u) <==> !Fooled(c, u.Path())
  {
    if Fooled(c, u.Path()) {
      var content, s, steps := Deceive(c, u);
      assert NilRun(u.(content := content), c, s, steps);
      assert !Trustworthy(c, u);
    } else {
      forall content: seq<byte>, s, steps | NilRun(u.(content := content), c, s, steps)
        ensures Stored(u.(content := content), Final(u.(content := content), s, steps).ctl)
      {
        var v := u.(content := content);
        assert v.Path() == u.Path();
        if Refuses(c, v.Path()) {
          InitRefused(v, c, s);
          RunRefused(v, c, s, steps);
        } else {
          NilMeansStored(v, c, s, steps);
        }
      }
    }
  }

  // --- Refused and not fooled: Upload never returns nil ----------------------

  ghost predicate RefusedInv(u: Upload, c: Ctl, s: System) {
    && u.Valid() && u.Size() > 0 && PhaseOk(u, s.phase)
    && s.phase != Finished(Nil)
    && (s.phase.Transferring? ==> s.phase.w.accepted == 0 && s.phase.w.next <= 1 && s.phase.w.window == 1)
    && (forall q :: q in s.sent ==> q == u.StartPacket() || q == u.ChunkPacket(0) || q == UploadAbort)
    && (UploadAbort in s.sent ==> s.phase.Cleaning? || s.phase.Finished?)
    && (UploadAbort !in s.sent ==> s.ctl == c && forall a :: ChunkAck(CHUNK_OK, a) in s.replies ==> HarmlessCount(c, a))
  }

  predicate HarmlessCount(c: Ctl, a: nat) {
    !c.canceled && a == c.acceptedCount && a != 1
  }

  lemma InitRefused(u: Upload, c: Ctl, s: System)
    requires u.Valid() && u.Size() > 0 && Init(u, c, s)
    ensures RefusedInv(u, c, s)
  {
    var connected, busy, canceled :| (s.phase, s.sent) == Enter(u, s.now, connected, busy, canceled);
    EnterCases(u, s.now, connected, busy, canceled);
  }

  lemma RefusedDeliver(u: Upload, c: Ctl, s: System, q: Request)
    requires RefusedInv(u, c, s) && Consistent(c) && Refuses(c, u.Path()) && !Fooled(c, u.Path())
    requires Enabled(u, s, Deliver(q))
    ensures RefusedInv(u, c, Apply(u, s, Deliver(q)))
  {
    var t := Apply(u, s, Deliver(q));
    if UploadAbort !in s.sent {
      if q == u.StartPacket() {
        assert t.replies == s.replies + {StartAck(START_ALREADY_STARTED)};
      } else {
        assert q == u.ChunkPacket(0);
        assert OnChunk(c, 0, u.ChunkPacket(0).data).0 == c;
      }
      assert t.ctl == c;
      forall a | ChunkAck(CHUNK_OK, a) in t.replies ensures HarmlessCount(c, a) {
      }
    }
  }

  lemma RefusedTransfer(u: Upload, c: Ctl, s: System, o: Obs)
    requires RefusedInv(u, c, s) && Enabled(u, s, TurnTransfer(o))
    ensures RefusedInv(u, c, Apply(u, s, TurnTransfer(o)))
  {
    var j, w := u.Sending(), s.phase.w;
    var turn := TurnChunks(j, w, o);
    var t := Apply(u, s, TurnTransfer(o));
    TurnKeepsWindow(j, w, o);
    assert UploadAbort !in s.sent;
    IgnoresHarmless(j, w, o);
    if turn.Continue? {
      forall q | q in turn.sent ensures q == u.ChunkPacket(0) {
        var i: nat :| i < turn.w.next && q == j.packet(i);
        assert q == u.ChunkPacket(i);
      }
    }
  }

  // An OK count that is not 1 leaves a window of one chunk where it is.
  lemma IgnoresHarmless(j: Job, w: Window, o: Obs)
    requires WellFormed(j, w) && w.accepted < j.total
    requires w.accepted == 0 && w.next <= 1 && w.window == 1
    requires o.ack.GotAck? && o.ack.result == CHUNK_OK ==> o.ack.accepted != 1
    ensures var t := TurnChunks(j, w, o);
            && t != Return(Nil)
            && (t.Continue? ==> t.w.accepted == 0 && t.w.next <= 1 && t.w.window == 1)
  {
    if !CanFill(j, w) { FlightNotEmpty(j, w); }
  }

  lemma RefusedStep(u: Upload, c: Ctl, s: System, step: Step)
    requires RefusedInv(u, c, s) && Consistent(c) && Refuses(c, u.Path()) && !Fooled(c, u.Path())
    requires Enabled(u, s, step)
    ensures RefusedInv(u, c, Apply(u, s, step))
  {
    ChunkBounds(u, 0);
    match step
    case Deliver(q) => RefusedDeliver(u, c, s, q);
    case TurnOpen(o) => assert Apply(u, s, step).sent <= s.sent + {u.StartPacket()};
    case TurnTransfer(o) => RefusedTransfer(u, c, s, o);
    case TurnClean(at) => assert Apply(u, s, step).sent <= s.sent + {UploadAbort};
  }

  lemma {:induction false} RunRefused(u: Upload, c: Ctl, s: System, steps: seq<Step>)
    requires RefusedInv(u, c, s) && Consistent(c) && Refuses(c, u.Path()) && !Fooled(c, u.Path())
    requires Execution(u, s, steps)
    ensures Final(u, s, steps).phase != Finished(Nil)
    decreases |steps|
  {
    if steps != [] {
      RefusedStep(u, c, s, steps[0]);
      RunRefused(u, c, Apply(u, s, steps[0]), steps[1..]);
    }
  }

  // --- Fooled: a run that returns nil and stores nothing ----------------------

  lemma Prepend(u: Upload, s: System, step: Step, rest: seq<Step>)
    requires Enabled(u, s, step) && Execution(u, Apply(u, s, step), rest)
    ensures Execution(u, s, [step] + rest)
    ensures Final(u, s, [step] + rest) == Final(u, Apply(u, s, step), rest)
  {
    assert ([step] + rest)[1..] == rest;
  }

  // A file of one or two equal bytes that the controller does not hold as p and
  // that would not complete the open transfer.
  lemma Decoy(c: Ctl, p: Text) returns (content: seq<byte>)
    ensures 1 <= |content| <= 2
    ensures |c.uploadData| + |content| != c.uploadSize
    ensures p in c.files ==> c.files[p] != content
  {
    var one: seq<seq<byte>> := if |c.uploadData| + 1 != c.uploadSize then [[0], [1]] else [[0, 0], [1, 1]];
    content := if p in c.files && c.files[p] == one[0] then one[1] else one[0];
    assert one[0][0] != one[1][0];
  }

  // The client resends its start, reads the refusal of the first one as its own
  // success, and takes one ACK of somebody else's transfer for completion.
  lemma Deceive(c: Ctl, u: Upload) returns (content: seq<byte>, s: System, steps: seq<Step>)
    requires u.Valid() && u.startRetransmit < u.startTimeout && Fooled(c, u.Path())
    ensures NilRun(u.(content := content), c, s, steps)
    ensures !Stored(u.(content := content), Final(u.(content := content), s, steps).ctl)
  {
    content := Decoy(c, u.Path());
    var v := u.(content := content);
    assert v.Path() == u.Path() && v.Total() == 1;
    var r := v.startRetransmit;
    s := System(Opening(Starting(0, r, v.startTimeout)), c, {v.StartPacket()}, {}, 0, false);
    assert (s.phase, s.sent) == Enter(v, 0, true, false, false);
    var s1, step1 := Refused(v, c, s);
    var s2, step2 := Resent(v, s1);
    var s3, step3 := Believed(v, s2);
    var s4, step4 := OneChunk(v, s3);
    var s5, step5 := Miscounted(v, c, s4);
    var step6 := TurnTransfer(Obs(r, 0, NoError, GotAck(CHUNK_OK, 1)));
    assert Enabled(v, s5, step6);
    var s6 := Apply(v, s5, step6);
    assert s6.phase == Finished(Nil);
    Prepend(v, s5, step6, []);
    Prepend(v, s4, step5, [step6]);
    Prepend(v, s3, step4, [step5] + [step6]);
    Prepend(v, s2, step3, [step4] + ([step5] + [step6]));
    Prepend(v, s1, step2, [step3] + ([step4] + ([step5] + [step6])));
    steps := [step1] + ([step2] + ([step3] + ([step4] + ([step5] + [step6]))));
    Prepend(v, s, step1, [step2] + ([step3] + ([step4] + ([step5] + [step6]))));
  }

  lemma Refused(u: Upload, c: Ctl, s: System) returns (t: System, step: Step)
    requires Refuses(c, u.Path())
    requires s == System(Opening(Starting(0, u.startRetransmit, u.startTimeout)), c, {u.StartPacket()}, {}, 0, false)
    ensures Enabled(u, s, step) && t == Apply(u, s, step)
    ensures t == s.(replies := {StartAck(START_ALREADY_STARTED)})
  {
    step := Deliver(u.StartPacket());
    t := Apply(u, s, step);
  }

  lemma Resent(u: Upload, s: System) returns (t: System, step: Step)
    requires 0 < u.startRetransmit < u.startTimeout && s.now == 0
    requires s.phase == Opening(Starting(0, u.startRetransmit, u.startTimeout)) && s.sent == {u.StartPacket()}
    ensures Enabled(u, s, step) && t == Apply(u, s, step)
    ensures t == s.(phase := Opening(Starting(1, 2 * u.startRetransmit, u.startTimeout)), now := u.startRetransmit)
  {
    step := TurnOpen(StartObs(u.startRetransmit, Silence, u.startRetransmit));
    t := Apply(u, s, step);
    assert t.sent == s.sent;
  }

  lemma Believed(u: Upload, s: System) returns (t: System, step: Step)
    requires 0 < u.startRetransmit < u.startTimeout && s.now == u.startRetransmit && u.Size() > 0
    requires s.phase == Opening(Starting(1, 2 * u.startRetransmit, u.startTimeout))
    requires StartAck(START_ALREADY_STARTED) in s.replies
    ensures Enabled(u, s, step) && t == Apply(u, s, step)
    ensures t == s.(phase := Transferring(InitialWindow(u.startRetransmit)))
  {
    step := TurnOpen(StartObs(s.now, Answer(START_ALREADY_STARTED), s.now));
    t := Apply(u, s, step);
    assert t.sent == s.sent;
  }

  lemma OneChunk(u: Upload, s: System) returns (t: System, step: Step)
    requires s.phase == Transferring(InitialWindow(s.now)) && u.Total() == 1
    ensures Enabled(u, s, step) && t == Apply(u, s, step)
    ensures t.ctl == s.ctl && t.replies == s.replies && t.now == s.now && u.ChunkPacket(0) in t.sent
    ensures t.phase.Transferring? && t.phase.w.accepted == 0 && t.phase.w.next == 1
    ensures PhaseOk(u, t.phase)
  {
    var j := u.Sending();
    var o := Obs(s.now, j.size(0), NoError, NoAck);
    step := TurnTransfer(o);
    t := Apply(u, s, step);
    TurnKeepsWindow(j, s.phase.w, o);
    assert j.packet(0) == u.ChunkPacket(0);
    assert j.packet(0) in TurnChunks(j, s.phase.w, o).sent;
  }

  lemma Miscounted(u: Upload, c: Ctl, s: System) returns (t: System, step: Step)
    requires Fooled(c, u.Path()) && u.Total() == 1 && s.ctl == c && PhaseOk(u, s.phase)
    requires u.ChunkPacket(0) in s.sent
    requires |c.uploadData| + u.Size() != c.uploadSize
    requires u.Path() in c.files ==> c.files[u.Path()] != u.content
    ensures Enabled(u, s, step) && t == Apply(u, s, step)
    ensures t.phase == s.phase && t.now == s.now
    ensures ChunkAck(CHUNK_OK, 1) in t.replies && !Stored(u, t.ctl)
  {
    step := Deliver(u.ChunkPacket(0));
    t := Apply(u, s, step);
    ChunkBounds(u, 0);
    assert u.ChunkPacket(0).data == u.content;
  }

  // --- The zero-byte upload -----------------------------------------------------

  ghost predicate StartsOnly(u: Upload, c: Ctl, s: System) {
    && (s.phase.Opening? || s.phase.Finished?) && s.sent <= {u.StartPacket()} && s.ctl.files == c.files
  }

  lemma {:induction false} RunStartsOnly(u: Upload, c: Ctl, s: System, steps: seq<Step>)
    requires u.Size() == 0 && StartsOnly(u, c, s) && Execution(u, s, steps)
    ensures StartsOnly(u, c, Final(u, s, steps))
    decreases |steps|
  {
    if steps != [] {
      RunStartsOnly(u, c, Apply(u, s, steps[0]), steps[1..]);
    }
  }

  // A zero-byte upload never changes a file on the controller, so its nil
  // result means stored exactly when an empty file was there before.
  lemma ZeroBytesStoreNothing(u: Upload, c: Ctl, s: System, steps: seq<Step>)
    requires u.Size() == 0 && Init(u, c, s) && Execution(u, s, steps)
    ensures Final(u, s, steps).ctl.files == c.files
    ensures Stored(u, Final(u, s, steps).ctl) <==> Stored(u, c)
  {
    var connected, busy, canceled :| (s.phase, s.sent) == Enter(u, s.now, connected, busy, canceled);
    EnterCases(u, s.now, connected, busy, canceled);
    RunStartsOnly(u, c, s, steps);
  }

  // And it does return nil: one delivered start and its answer are enough.
  lemma ZeroBytesReturnNil(u: Upload, c: Ctl) returns (s: System, steps: seq<Step>)
    requires u.Valid() && u.Size() == 0 && !Refuses(c, u.Path())
    ensures Init(u, c, s) && Execution(u, s, steps)
    ensures Final(u, s, steps).phase == Finished(Nil) && (Stored(u, Final(u, s, steps).ctl) <==> Stored(u, c))
  {
    s := System(Opening(Starting(0, u.startRetransmit, u.startTimeout)), c, {u.StartPacket()}, {}, 0, false);
    assert (s.phase, s.sent) == Enter(u, 0, true, false, false);
    var step1, step2 := Deliver(u.StartPacket()), TurnOpen(StartObs(0, Answer(START_OK), 0));
    var s1 := Apply(u, s, step1);
    assert StartAck(START_OK) in s1.replies;
    assert Apply(u, s1, step2).phase == Finished(Nil);
    Prepend(u, s1, step2, []);
    steps := [step1] + [step2];
    Prepend(u, s, step1, [step2]);
    ZeroBytesStoreNothing(u, c, s, steps);
  }
}
