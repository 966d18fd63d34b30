// What an upload can do to other files when its name is refused: exactly which
// controller states leave every file stored before as it was.
module UploadHarm {
  import opened Bytes
  import opened FileNames
  import opened Wire
  import opened Controller
  import opened UploadClient
  import opened UploadProtocol
  import opened UploadExactly

  // What every state the handlers can reach satisfies.
  predicate Tidy(c: Ctl) {
    c.uploading ==> c.current == c.uploadName && c.current != []
  }

  lemma HandlersKeepTidy(c: Ctl, q: Request)
    requires Tidy(c) && (q.UploadStart? ==> JoinUploadPath(q.path, q.name) != [])
    ensures Tidy(Handle(c, q).0)
  {
  }

  // A start for p is refused while the transfer the controller accepted last is
  // another file's, which it holds.
  predicate Exposed(c: Ctl, p: Text) {
    Refuses(c, p) && c.current != [] && c.current != p && c.current in c.files
  }

  // Every file stored before under another path is still there, unchanged.
  ghost predicate StoredKept(before: map<Text, seq<byte>>, files: map<Text, seq<byte>>, p: Text) {
    forall q :: q in before && q != p ==> q in files && files[q] == before[q]
  }

  // Over every run of this upload.
  ghost predicate Harmless(c: Ctl, u: Upload) {
    forall s, steps :: Init(u, c, s) && Execution(u, s, steps) ==>
      StoredKept(c.files, Final(u, s, steps).ctl.files, u.Path())
  }

  lemma HarmlessIffNotExposed(c: Ctl, u: Upload)
    requires Tidy(c) && u.Valid() && u.startRetransmit < u.startTimeout
    ensures Harmless(c, u) <==> u.Size() == 0 || !Exposed(c, u.Path())
  {
    if u.Size() > 0 && Exposed(c, u.Path()) {
      var s, steps := Destroy(c, u);
      assert !StoredKept(c.files, Final(u, s, steps).ctl.files, u.Path());
    } else {
      forall s, steps | Init(u, c, s) && Execution(u, s, steps)
        ensures StoredKept(c.files, Final(u, s, steps).ctl.files, u.Path())
      {
        RunKeepsStored(c, u, s, steps);
      }
    }
  }

  lemma RunKeepsStored(c: Ctl, u: Upload, s: System, steps: seq<Step>)
    requires Tidy(c) && u.Valid() && Init(u, c, s) && Execution(u, s, steps)
    requires u.Size() == 0 || !Exposed(c, u.Path())
    ensures StoredKept(c.files, Final(u, s, steps).ctl.files, u.Path())
  {
    if u.Size() == 0 {
      ZeroBytesStoreNothing(u, c, s, steps);
    } else if !Refuses(c, u.Path()) {
      OtherFilesUntouched(u, c, s, steps);
    } else {
      var connected, busy, canceled :| (s.phase, s.sent) == Enter(u, s.now, connected, busy, canceled);
      EnterCases(u, s.now, connected, busy, canceled);
      RunSafe(c, u, s, steps);
    }
  }

  // --- Harmless: nothing the upload can reach was stored ------------------------

  ghost predicate Safe(c: Ctl, p: Text, now: Ctl) {
    && Tidy(now) && StoredKept(c.files, now.files, p)
    && (now.current == [] || now.current == p || (now.current == c.current && c.current !in c.files))
  }

  ghost predicate SafeInv(c: Ctl, u: Upload, s: System) {
    Safe(c, u.Path(), s.ctl) && forall q :: q in s.sent ==> OwnRequest(u, q)
  }

  lemma DeliverSafe(c: Ctl, u: Upload, now: Ctl, q: Request)
    requires u.Valid() && Safe(c, u.Path(), now) && OwnRequest(u, q)
    ensures Safe(c, u.Path(), Handle(now, q).0)
  {
    StoredPathNotEmpty(u.dir, u.name);
  }

  lemma StepSafe(c: Ctl, u: Upload, s: System, step: Step)
    requires u.Valid() && SafeInv(c, u, s) && Enabled(u, s, step)
    ensures SafeInv(c, u, Apply(u, s, step))
  {
    match step
    case Deliver(q) => DeliverSafe(c, u, s.ctl, q);
    case TurnOpen(o) => assert Apply(u, s, step).sent <= s.sent + {u.StartPacket()};
    case TurnTransfer(o) =>
      TurnKeepsWindow(u.Sending(), s.phase.w, o);
      NewChunksAreOwn(u, TurnChunks(u.Sending(), s.phase.w, o));
    case TurnClean(at) => assert Apply(u, s, step).sent <= s.sent + {UploadAbort};
  }

  lemma {:induction false} RunSafe(c: Ctl, u: Upload, s: System, steps: seq<Step>)
    requires u.Valid() && SafeInv(c, u, s) && Execution(u, s, steps)
    ensures SafeInv(c, u, Final(u, s, steps))
    decreases |steps|
  {
    if steps != [] {
      StepSafe(c, u, s, steps[0]);
      RunSafe(c, u, Apply(u, s, steps[0]), steps[1..]);
    }
  }

  // --- Exposed: a run that deletes the other file ---------------------------------

  // The client takes the refusal of its first start for its own success, cannot
  // read its file, and notifies the controller, which deletes what it accepted
  // last.
  lemma Destroy(c: Ctl, u: Upload) returns (s: System, steps: seq<Step>)
    requires u.Valid() && u.Size() > 0 && u.startRetransmit < u.startTimeout && Exposed(c, u.Path())
    ensures Init(u, c, s) && Execution(u, s, steps)
    ensures c.current !in Final(u, s, steps).ctl.files
  {
    s := System(Opening(Starting(0, u.startRetransmit, u.startTimeout)), c, {u.StartPacket()}, {}, 0, false);
    assert (s.phase, s.sent) == Enter(u, 0, true, false, false);
    var s1, step1 := Refused(u, c, s);
    var s2, step2 := Resent(u, s1);
    var s3, step3 := Believed(u, s2);
    var s4, step4 := Unreadable(u, s3);
    var s5, step5 := Notify(u, s4);
    var step6 := Deliver(UploadAbort);
    Prepend(u, s5, step6, []);
    Prepend(u, s4, step5, [step6]);
    Prepend(u, s3, step4, [step5] + [step6]);
    Prepend(u, s2, step3, [step4] + ([step5] + [step6]));
    Prepend(u, s1, step2, [step3] + ([step4] + ([step5] + [step6])));
    steps := [step1] + ([step2] + ([step3] + ([step4] + ([step5] + [step6]))));
    Prepend(u, s, step1, [step2] + ([step3] + ([step4] + ([step5] + [step6]))));
  }

  lemma Unreadable(u: Upload, s: System) returns (t: System, step: Step)
    requires s.phase == Transferring(InitialWindow(s.now)) && u.Size() > 0
    ensures Enabled(u, s, step) && t == Apply(u, s, step)
    ensures t.phase == Cleaning(ABORT_NOTIFICATIONS, ReadFailed) && t.ctl == s.ctl && t.sent == s.sent && t.now == s.now
  {
    ChunkBounds(u, 0);
    step := TurnTransfer(Obs(s.now, 0, OtherError, NoAck));
    t := Apply(u, s, step);
    assert t.sent == s.sent;
  }

  lemma Notify(u: Upload, s: System) returns (t: System, step: Step)
    requires s.phase == Cleaning(ABORT_NOTIFICATIONS, ReadFailed)
    ensures Enabled(u, s, step) && t == Apply(u, s, step)
    ensures t.ctl == s.ctl && UploadAbort in t.sent && !t.phase.Transferring?
  {
    step := TurnClean(s.now);
    t := Apply(u, s, step);
  }
}
