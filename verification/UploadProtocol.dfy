// One upload over a network that may lose, duplicate and reorder datagrams: the
// client of internal/masso/upload.go and the controller of
// internal/masso/sim/sim.go side by side. Every request and reply ever sent may
// be delivered at any later time, any number of times or never.
module UploadProtocol {
  import opened Bytes
  import opened FileNames
  import opened Wire
  import opened Controller
  import opened UploadClient

  datatype Phase =
    | Opening(s: Starting)               // startUpload
    | Transferring(w: Window)            // sendChunks
    | Cleaning(left: nat, f: Failure)    // notifyAbort
    | Finished(outcome: Outcome)         // Upload has returned

  datatype System = System(
    phase: Phase,
    ctl: Ctl,
    sent: set<Request>,
    replies: set<Reply>,
    now: int,
    begun: bool) // history: a start of this upload has begun a transfer

  datatype Step =
    | Deliver(q: Request)
    | TurnOpen(so: StartObs)
    | TurnTransfer(o: Obs)
    | TurnClean(at: int)

  // Upload up to its first send.
  function Enter(u: Upload, now: int, connected: bool, busy: bool, canceled: bool): (Phase, set<Request>) {
    if |u.content| >= UINT32_LIMIT then (Finished(Failed(FileTooLarge)), {})
    else if !connected then (Finished(Failed(NotConnected)), {})
    else if busy then (Finished(Failed(Busy)), {})
    else if !ValidFileName(u.name) then (Finished(Failed(BadName)), {})
    else if !ValidUploadDir(u.dir) then (Finished(Failed(BadDir)), {})
    else if canceled then (Finished(Failed(ContextDone)), {})
    else (Opening(Starting(0, now + u.startRetransmit, now + u.startTimeout)), {u.StartPacket()})
  }

  // The call begins with no datagram of an earlier upload in the network.
  ghost predicate Init(u: Upload, c: Ctl, s: System) {
    && s.ctl == c && s.replies == {} && !s.begun
    && exists connected, busy, canceled ::
         (s.phase, s.sent) == Enter(u, s.now, connected, busy, canceled)
  }

  ghost predicate PhaseOk(u: Upload, p: Phase) {
    p.Transferring? ==> WellFormed(u.Sending(), p.w) && p.w.accepted < u.Total()
  }

  ghost predicate Enabled(u: Upload, s: System, step: Step) {
    && PhaseOk(u, s.phase)
    && match step
       case Deliver(q) => q in s.sent
       case TurnOpen(o) =>
         && s.phase.Opening? && s.now <= o.now <= o.after
         && (o.event.Answer? ==> StartAck(o.event.result) in s.replies)
       case TurnTransfer(o) =>
         && s.phase.Transferring? && s.now <= o.now
         && (o.ack.GotAck? ==> ChunkAck(o.ack.result, o.ack.accepted) in s.replies)
       case TurnClean(at) => s.phase.Cleaning? && s.now <= at
  }

  function AfterOpening(u: Upload, t: StartTurn): (Phase, set<Request>) {
    match t
    case Again(s, resent) => (Opening(s), if resent then {u.StartPacket()} else {})
    case Started(at) => (if u.Size() == 0 then Finished(Nil) else Transferring(InitialWindow(at)), {})
    case StartFailed(f) => (Finished(Failed(f)), {})
  }

  function AfterTransferring(t: ChunkTurn): (Phase, set<Request>) {
    match t
    case Continue(w, sent) => (Transferring(w), set q | q in sent)
    case Return(outcome) =>
      match outcome
      case Nil => (Finished(Nil), {})
      case Failed(f) => (Cleaning(ABORT_NOTIFICATIONS, f), {})
  }

  function AfterCleaning(left: nat, f: Failure): (Phase, set<Request>) {
    if left > 0 then (Cleaning(left - 1, f), {UploadAbort}) else (Finished(Failed(f)), {})
  }

  // The client's part of a step.
  ghost function Client(u: Upload, s: System, step: Step): (Phase, set<Request>)
    requires Enabled(u, s, step)
  {
    match step
    case Deliver(_) => (s.phase, {})
    case TurnOpen(o) => AfterOpening(u, TurnStart(u, s.phase.s, o))
    case TurnTransfer(o) => AfterTransferring(TurnChunks(u.Sending(), s.phase.w, o))
    case TurnClean(at) => AfterCleaning(s.phase.left, s.phase.f)
  }

  function Clock(s: System, step: Step): int {
    match step
    case Deliver(_) => s.now
    case TurnOpen(o) => o.after
    case TurnTransfer(o) => o.now
    case TurnClean(at) => at
  }

  ghost function Apply(u: Upload, s: System, step: Step): (t: System)
    requires Enabled(u, s, step)
  {
    var (phase, out) := Client(u, s, step);
    match step
    case Deliver(q) =>
      var (ctl, answers) := Handle(s.ctl, q);
      s.(ctl := ctl, replies := s.replies + answers,
         begun := s.begun || (q == u.StartPacket() && !Refuses(s.ctl, u.Path())))
    case _ => s.(phase := phase, sent := s.sent + out, now := Clock(s, step))
  }

  // Every step of the run is enabled where it is taken.
  ghost predicate Execution(u: Upload, s: System, steps: seq<Step>)
    decreases |steps|
  {
    steps == [] || (Enabled(u, s, steps[0]) && Execution(u, Apply(u, s, steps[0]), steps[1..]))
  }

  ghost function Final(u: Upload, s: System, steps: seq<Step>): System
    requires Execution(u, s, steps)
    decreases |steps|
  {
    if steps == [] then s else Final(u, Apply(u, s, steps[0]), steps[1..])
  }

  // --- Cutting a file into chunks ------------------------------------------

  lemma ChunkBounds(u: Upload, i: nat)
    ensures u.Offset(0) == 0
    ensures i < u.Total() ==> u.Offset(i) == i * MAX_CHUNK_DATA < u.Size()
    ensures i < u.Total() ==> (u.Offset(i + 1) == u.Size() <==> i + 1 == u.Total())
    ensures i <= u.Total() ==> u.Offset(i) <= u.Offset(i + 1)
    ensures |u.content[u.Offset(i)..u.Offset(i + 1)]| <= MAX_CHUNK_DATA
    ensures u.Size() > 0 <==> u.Total() > 0
  {
  }

  lemma PrefixGrows(u: Upload, i: nat)
    requires i < u.Total()
    ensures u.content[..u.Offset(i)] + u.ChunkPacket(i).data == u.content[..u.Offset(i + 1)]
    ensures |u.content[..u.Offset(i + 1)]| == u.Size() <==> i + 1 == u.Total()
    ensures i + 1 == u.Total() ==> u.content[..u.Offset(i + 1)] == u.content
  {
    ChunkBounds(u, i);
  }

  // --- The invariant -------------------------------------------------------

  // Every path but p holds in files what it held before.
  ghost predicate OthersKept(before: map<Text, seq<byte>>, files: map<Text, seq<byte>>, p: Text) {
    forall q :: q != p ==> (q in files <==> q in before) && (q in files ==> files[q] == before[q])
  }

  // The controller as this upload's own requests have left it.
  ghost predicate Serving(u: Upload, c: Ctl) {
    && u.Path() !in c.stuck
    && (c.current == u.Path() || c.current == [])
    && (c.uploading ==>
          && c.uploadName == u.Path() && c.uploadSize == u.Size()
          && (c.acceptedCount < u.Total() || u.Size() == 0)
          && c.uploadData == u.content[..u.Offset(c.acceptedCount)])
    && c.acceptedCount <= u.Total()
  }

  ghost predicate OwnRequest(u: Upload, q: Request) {
    q == u.StartPacket() || q == UploadAbort || exists i: nat :: i < u.Total() && q == u.ChunkPacket(i)
  }

  ghost predicate Stored(u: Upload, c: Ctl) {
    u.Path() in c.files && c.files[u.Path()] == u.content
  }

  // The controller has counted every chunk of this upload.
  ghost predicate AllCounted(u: Upload, s: System) {
    u.Total() > 0 && (ChunkAck(CHUNK_OK, u.Total()) in s.replies || (s.begun && s.ctl.acceptedCount == u.Total()))
  }

  ghost predicate Requests(u: Upload, s: System) {
    && (forall q :: q in s.sent ==> OwnRequest(u, q))
    && (s.phase.Opening? ==> s.sent == {u.StartPacket()})
    && (UploadAbort in s.sent ==> s.phase.Cleaning? || (s.phase.Finished? && s.phase.outcome.Failed?))
    && (s.phase.Transferring? || s.phase.Cleaning? || s.phase == Finished(Nil) ==> s.begun)
    && (!s.begun ==> s.sent <= {u.StartPacket()})
  }

  ghost predicate Inv(u: Upload, c: Ctl, s: System) {
    && u.Valid() && PhaseOk(u, s.phase) && Requests(u, s)
    && (!s.begun ==> s.ctl == c && s.replies == {})
    && (s.begun ==> Serving(u, s.ctl))
    && OthersKept(c.files, s.ctl.files, u.Path())
    && (AllCounted(u, s) && UploadAbort !in s.sent ==> Stored(u, s.ctl))
    && (s.phase == Finished(Nil) && u.Size() > 0 ==> ChunkAck(CHUNK_OK, u.Total()) in s.replies)
  }

  lemma InitInv(u: Upload, c: Ctl, s: System)
    requires u.Valid() && Init(u, c, s)
    ensures Inv(u, c, s)
  {
    var connected, busy, canceled :| (s.phase, s.sent) == Enter(u, s.now, connected, busy, canceled);
    EnterCases(u, s.now, connected, busy, canceled);
  }

  lemma EnterCases(u: Upload, now: int, connected: bool, busy: bool, canceled: bool)
    ensures var (phase, sent) := Enter(u, now, connected, busy, canceled);
            || (phase.Finished? && phase.outcome.Failed? && sent == {})
            || (phase == Opening(Starting(0, now + u.startRetransmit, now + u.startTimeout)) && sent == {u.StartPacket()})
  {
  }

  // --- Every step keeps it ---------------------------------------------------

  // A start either finds this upload's transfer open and changes nothing, or
  // begins it afresh. No stored file changes.
  lemma StartServes(u: Upload, c: Ctl)
    requires u.Valid() && (Serving(u, c) || !Refuses(c, u.Path()))
    ensures var c' := OnStart(c, u.Size(), u.Path()).0;
            && Serving(u, c') && c'.files == c.files
            && (c'.acceptedCount == u.Total() ==> u.Total() == 0 || c' == c)
    ensures OnStart(c, u.Size(), u.Path()).1.StartAck?
  {
    ChunkBounds(u, 0);
    assert u.content[..u.Offset(0)] == [];
  }

  lemma DeliverStartKeeps(u: Upload, c: Ctl, s: System)
    requires Inv(u, c, s) && !Refuses(c, u.Path()) && Enabled(u, s, Deliver(u.StartPacket()))
    ensures Inv(u, c, Apply(u, s, Deliver(u.StartPacket())))
  {
    var t := Apply(u, s, Deliver(u.StartPacket()));
    StartServes(u, s.ctl);
    assert t.ctl == OnStart(s.ctl, u.Size(), u.Path()).0;
    assert t.replies == s.replies + {OnStart(s.ctl, u.Size(), u.Path()).1};
    assert t.begun;
    if AllCounted(u, t) { assert AllCounted(u, s); }
  }

  lemma DeliverAbortKeeps(u: Upload, c: Ctl, s: System)
    requires Inv(u, c, s) && Enabled(u, s, Deliver(UploadAbort))
    ensures Inv(u, c, Apply(u, s, Deliver(UploadAbort)))
  {
    assert s.begun;
    var t := Apply(u, s, Deliver(UploadAbort));
    assert t.ctl == OnAbort(s.ctl).0;
  }

  // A chunk of this upload is appended in its turn, and the last one stores
  // the file; any other chunk changes nothing.
  lemma ChunkServes(u: Upload, c: Ctl, i: nat)
    requires u.Valid() && Serving(u, c) && i < u.Total()
    ensures var (c', a) := OnChunk(c, i, u.ChunkPacket(i).data);
            && Serving(u, c') && OthersKept(c.files, c'.files, u.Path())
            && (c' == c || (c'.acceptedCount == i + 1 && (if i + 1 == u.Total() then Stored(u, c') else c'.files == c.files)))
            && (a.ChunkAck? && a.chunkResult == CHUNK_OK ==> a.accepted == c'.acceptedCount)
  {
    ChunkBounds(u, i);
    assert u.Total() < UINT32_LIMIT;
    if c.uploading && i == c.acceptedCount {
      PrefixGrows(u, i);
    }
  }

  lemma DeliverChunkKeeps(u: Upload, c: Ctl, s: System, i: nat)
    requires Inv(u, c, s) && i < u.Total() && Enabled(u, s, Deliver(u.ChunkPacket(i)))
    ensures Inv(u, c, Apply(u, s, Deliver(u.ChunkPacket(i))))
  {
    assert s.begun;
    var t := Apply(u, s, Deliver(u.ChunkPacket(i)));
    var (c', a) := OnChunk(s.ctl, i, u.ChunkPacket(i).data);
    ChunkServes(u, s.ctl, i);
    assert t.ctl == c' && t.replies == s.replies + {a};
    if AllCounted(u, t) && UploadAbort !in t.sent && !Stored(u, t.ctl) {
      assert !AllCounted(u, s);
    }
  }

  lemma OpenKeeps(u: Upload, c: Ctl, s: System, o: StartObs)
    requires Inv(u, c, s) && Enabled(u, s, TurnOpen(o))
    ensures Inv(u, c, Apply(u, s, TurnOpen(o)))
  {
    var turn := TurnStart(u, s.phase.s, o);
    var t := Apply(u, s, TurnOpen(o));
    ChunkBounds(u, 0);
    assert AllCounted(u, t) ==> AllCounted(u, s);
    if turn.Again? {
      assert t.sent == {u.StartPacket()};
    }
  }

  // A nil result was drawn by an ACK that counts every chunk.
  lemma NilMeansAllAcked(j: Job, w: Window, o: Obs)
    requires WellFormed(j, w) && w.accepted < j.total && TurnChunks(j, w, o) == Return(Nil)
    ensures o.ack == GotAck(CHUNK_OK, j.total)
  {
    if !CanFill(j, w) && o.ack.NoAck? { FlightNotEmpty(j, w); }
  }

  lemma TransferKeeps(u: Upload, c: Ctl, s: System, o: Obs)
    requires Inv(u, c, s) && Enabled(u, s, TurnTransfer(o))
    ensures Inv(u, c, Apply(u, s, TurnTransfer(o)))
  {
    var j := u.Sending();
    var turn := TurnChunks(j, s.phase.w, o);
    var t := Apply(u, s, TurnTransfer(o));
    TurnKeepsWindow(j, s.phase.w, o);
    if turn == Return(Nil) { NilMeansAllAcked(j, s.phase.w, o); }
    assert AllCounted(u, t) ==> AllCounted(u, s);
    assert UploadAbort !in s.sent;
    NewChunksAreOwn(u, turn);
    forall q | q in t.sent ensures OwnRequest(u, q) && q != UploadAbort {
    }
  }

  lemma NewChunksAreOwn(u: Upload, turn: ChunkTurn)
    requires turn.Continue? ==> ChunksBelow(u.Sending(), turn.sent, turn.w.next) && turn.w.next <= u.Total()
    ensures var out := AfterTransferring(turn).1;
            UploadAbort !in out && forall q :: q in out ==> OwnRequest(u, q)
  {
    var out := AfterTransferring(turn).1;
    forall q | q in out ensures OwnRequest(u, q) && q != UploadAbort {
      var i: nat :| i < turn.w.next && q == u.Sending().packet(i);
      assert q == u.ChunkPacket(i);
    }
  }

  lemma CleanKeeps(u: Upload, c: Ctl, s: System, at: int)
    requires Inv(u, c, s) && Enabled(u, s, TurnClean(at))
    ensures Inv(u, c, Apply(u, s, TurnClean(at)))
  {
    var t := Apply(u, s, TurnClean(at));
    assert AllCounted(u, t) ==> AllCounted(u, s);
  }

  lemma StepKeeps(u: Upload, c: Ctl, s: System, step: Step)
    requires Inv(u, c, s) && !Refuses(c, u.Path()) && Enabled(u, s, step)
    ensures Inv(u, c, Apply(u, s, step))
  {
    match step
    case Deliver(q) =>
      if q == u.StartPacket() {
        DeliverStartKeeps(u, c, s);
      } else if q == UploadAbort {
        DeliverAbortKeeps(u, c, s);
      } else {
        assert OwnRequest(u, q);
        var i: nat :| i < u.Total() && q == u.ChunkPacket(i);
        DeliverChunkKeeps(u, c, s, i);
      }
    case TurnOpen(o) => OpenKeeps(u, c, s, o);
    case TurnTransfer(o) => TransferKeeps(u, c, s, o);
    case TurnClean(at) => CleanKeeps(u, c, s, at);
  }

  lemma {:induction false} RunKeeps(u: Upload, c: Ctl, s: System, steps: seq<Step>)
    requires Inv(u, c, s) && !Refuses(c, u.Path()) && Execution(u, s, steps)
    ensures Inv(u, c, Final(u, s, steps))
    decreases |steps|
  {
    if steps != [] {
      StepKeeps(u, c, s, steps[0]);
      RunKeeps(u, c, Apply(u, s, steps[0]), steps[1..]);
    }
  }

  // --- What Upload promises --------------------------------------------------

  // A nil return means the controller stored exactly the bytes, and still
  // holds them however much later.
  lemma NilMeansStored(u: Upload, c: Ctl, s: System, steps: seq<Step>)
    requires u.Valid() && u.Size() > 0 && !Refuses(c, u.Path())
    requires Init(u, c, s) && Execution(u, s, steps)
    requires Final(u, s, steps).phase == Finished(Nil)
    ensures Stored(u, Final(u, s, steps).ctl)
  {
    ChunkBounds(u, 0);
    InitInv(u, c, s);
    RunKeeps(u, c, s, steps);
  }

  // Whatever Upload returns, and at every moment before, every other stored
  // file is as it was: the abort deletes nothing but this upload's own file.
  lemma OtherFilesUntouched(u: Upload, c: Ctl, s: System, steps: seq<Step>)
    requires u.Valid() && !Refuses(c, u.Path())
    requires Init(u, c, s) && Execution(u, s, steps)
    ensures OthersKept(c.files, Final(u, s, steps).ctl.files, u.Path())
  {
    InitInv(u, c, s);
    RunKeeps(u, c, s, steps);
  }

  // Without an accepted start nothing at all has happened to the controller's
  // files, and no abort is ever sent.
  lemma NoAbortWithoutStart(u: Upload, c: Ctl, s: System, steps: seq<Step>)
    requires u.Valid() && !Refuses(c, u.Path())
    requires Init(u, c, s) && Execution(u, s, steps)
    ensures var t := Final(u, s, steps);
            && (UploadAbort in t.sent ==> t.begun && t.phase != Finished(Nil))
            && (!t.begun ==> t.ctl == c)
  {
    InitInv(u, c, s);
    RunKeeps(u, c, s, steps);
  }
}
