// How an upload ends (internal/masso/upload.go: Upload, notifyAbort): what is
// checked before anything is sent, and what follows a failure.
module UploadEnds {
  import opened Bytes
  import opened FileNames
  import opened Wire
  import opened Controller
  import opened UploadClient
  import opened UploadProtocol

  // --- Before the first send ---------------------------------------------------

  // Nothing is sent unless everything is in order; otherwise the first objection,
  // in this order, is the result.
  lemma EnterExact(u: Upload, now: int, connected: bool, busy: bool, canceled: bool)
    ensures var (phase, sent) := Enter(u, now, connected, busy, canceled);
            if |u.content| <= 0xFFFF_FFFF && connected && !busy
               && ValidFileName(u.name) && ValidUploadDir(u.dir) && !canceled then
              phase == Opening(Starting(0, now + u.startRetransmit, now + u.startTimeout)) && sent == {u.StartPacket()}
            else
              && sent == {}
              && phase == Finished(Failed(
                   if |u.content| > 0xFFFF_FFFF then FileTooLarge
                   else if !connected then NotConnected
                   else if busy then Busy
                   else if !ValidFileName(u.name) then BadName
                   else if !ValidUploadDir(u.dir) then BadDir
                   else ContextDone))
  {
  }

  // --- After a failure -----------------------------------------------------------

  function Notifications(steps: seq<Step>): nat {
    if steps == [] then 0 else (if steps[0].TurnClean? then 1 else 0) + Notifications(steps[1..])
  }

  // A start that fails is the result at once, and nothing more is sent; a transfer
  // that fails is followed by three notifications.
  lemma FailureExact(u: Upload, s: System, step: Step)
    requires Enabled(u, s, step)
    ensures var t := Apply(u, s, step);
            && (s.phase.Opening? && t.phase.Finished? ==> t.sent == s.sent)
            && (s.phase.Opening? && step.TurnOpen? && TurnStart(u, s.phase.s, step.so).StartFailed? ==>
                  t.phase == Finished(Failed(TurnStart(u, s.phase.s, step.so).f)))
            && (s.phase.Transferring? && step.TurnTransfer? && TurnChunks(u.Sending(), s.phase.w, step.o).Return? ==>
                  match TurnChunks(u.Sending(), s.phase.w, step.o).outcome
                  case Nil => t.phase == Finished(Nil)
                  case Failed(f) => t.phase == Cleaning(3, f) && t.sent == s.sent)
  {
    var t := Apply(u, s, step);
    if step.TurnOpen? && t.phase.Finished? { assert t.sent == s.sent; }
    if step.TurnTransfer? && t.phase.Cleaning? { assert t.sent == s.sent; }
  }

  // Whatever is delivered meanwhile, the upload sends as many notifications as are
  // left, and then returns the failure it was left with; after that nothing
  // changes its result.
  lemma {:induction false} CleaningEnds(u: Upload, s: System, steps: seq<Step>, left: nat, f: Failure)
    requires s.phase == Cleaning(left, f) && Execution(u, s, steps)
    ensures var n := Notifications(steps);
            && n <= left + 1
            && Final(u, s, steps).phase == (if n <= left then Cleaning(left - n, f) else Finished(Failed(f)))
            && (n >= 1 && left >= 1 ==> UploadAbort in Final(u, s, steps).sent)
    decreases |steps|
  {
    if steps != [] {
      var t := Apply(u, s, steps[0]);
      if t.phase.Cleaning? {
        CleaningEnds(u, t, steps[1..], t.phase.left, f);
        if steps[0].TurnClean? { SentStays(u, t, steps[1..], UploadAbort); }
      } else {
        FinishedStays(u, t, steps[1..]);
      }
    }
  }

  lemma {:induction false} SentStays(u: Upload, s: System, steps: seq<Step>, q: Request)
    requires q in s.sent && Execution(u, s, steps)
    ensures q in Final(u, s, steps).sent
    decreases |steps|
  {
    if steps != [] { SentStays(u, Apply(u, s, steps[0]), steps[1..], q); }
  }

  lemma {:induction false} FinishedStays(u: Upload, s: System, steps: seq<Step>)
    requires s.phase.Finished? && Execution(u, s, steps)
    ensures Final(u, s, steps).phase == s.phase && Notifications(steps) == 0
    decreases |steps|
  {
    if steps != [] { FinishedStays(u, Apply(u, s, steps[0]), steps[1..]); }
  }
}
