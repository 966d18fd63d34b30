// Manual sends and retries (internal/engine/scheduler.go: sendFile, retry, with
// archiveSent's check): a manual item jumps the queue, survives a folder switch,
// and its file is left where it is.
module QueueManual {
  import opened Bytes
  import opened UploadQueue
  import opened QueueRuns
  import opened QueueTheorems
  import opened QueueSwitch

  // What a manual send makes of its item: manual, with the content given; due at
  // once if it is not being sent, else sent again exactly if the content differs.
  lemma SendMakesManual(c: Config, q: Queue, op: Op)
    requires Inv(c, q) && Enabled(c, q, op) && op.SendOp?
    ensures var k, t := Join(op.dir, op.base), Apply(c, q, op);
            && IsManual(t, k)
            && t.items[k].path == op.path && t.items[k].size == op.size && t.items[k].modTime == op.modTime
            && if k in q.items && !q.items[k].orphaned && q.items[k].sending then
                 && t.items[k].sending && t.items[k].state == q.items[k].state && t.cur == q.cur
                 && (t.items[k].resendAfter <==> q.items[k].resendAfter || Changes(q, op))
               else DueAtOnce(t.items[k])
  {
  }

  // What a report makes of its item: nothing new if it is the content a manual
  // send already has; else a resend if it is being sent, and otherwise an item due
  // at once that is no longer manual.
  lemma ReadyMeans(c: Config, q: Queue, op: Op)
    requires Inv(c, q) && Enabled(c, q, op) && op.ReadyOp?
    ensures var k, t := Join(op.dir, op.base), Apply(c, q, op);
            && k in t.items
            && t.items[k].path == op.path && t.items[k].size == op.size && t.items[k].modTime == op.modTime
            && if IsManual(q, k) && !Changes(q, op) then
                 t.log == q.log && t.items[k] == q.items[k].(root := op.root, dir := op.dir, base := op.base)
               else if k in q.items && !q.items[k].orphaned && q.items[k].sending then
                 && t.items[k].sending && t.items[k].resendAfter && t.cur == q.cur
                 && t.items[k].state == q.items[k].state && t.items[k].manual == q.items[k].manual
               else DueAtOnce(t.items[k]) && !t.items[k].manual
  {
  }

  // A rejection shows its reason on the item of that name, new or not, which may
  // then not go at any time; no other item changes.
  lemma RejectExact(c: Config, q: Queue, op: Op)
    requires Enabled(c, q, op) && op.RejectOp?
    ensures var k, t := Join(op.dir, op.base), Apply(c, q, op);
            && k in t.items
            && t.items[k].state == Rejected && t.items[k].message == op.reason && t.items[k].path == op.path
            && !t.items[k].sending && (forall now :: !Candidate(t.items[k], now))
            && t.items.Keys == q.items.Keys + {k} && (forall n :: n in q.items && n != k ==> t.items[n] == q.items[n])
            && t.log == q.log + [EventOf(t.items[k])]
  {
  }

  predicate DueAtOnce(r: Row) {
    r.state == Pending && r.nextAttempt == None && r.failCount == 0 && !r.sending
  }

  predicate IsManual(q: Queue, k: string) {
    k in q.items && q.items[k].manual
  }

  // A report of k whose content is not the one on record.
  predicate NewReport(q: Queue, op: Op, k: string) {
    op.ReadyOp? && Join(op.dir, op.base) == k && Changes(q, op)
  }

  lemma OutsideLeavesManual(c: Config, q: Queue, op: Op, k: string)
    requires Inv(c, q) && Enabled(c, q, op) && IsManual(q, k) && !NewReport(q, op, k)
    requires op.ReadyOp? || op.SendOp? || op.RejectOp?
    ensures IsManual(Apply(c, q, op), k)
  {
  }

  lemma ClearLeavesManual(q: Queue, keep: string, drops: seq<Event>, k: string)
    requires IsManual(q, k)
    ensures IsManual(ClearNonManual(q, keep, drops), k)
  {
  }

  lemma SectionLeavesManual(c: Config, q: Queue, op: Op, k: string)
    requires Inv(c, q) && Enabled(c, q, op) && !FromOutside(op) && IsManual(q, k)
    requires !(op.OpenFailsOp? && q.cur == InMap(k))
    ensures IsManual(Apply(c, q, op), k)
  {
    SectionSamePlace(c, q, op, k);
    StaysInMap(c, q, op, k);
  }

  lemma StaysInMap(c: Config, q: Queue, op: Op, k: string)
    requires Inv(c, q) && Enabled(c, q, op) && !FromOutside(op) && k in q.items && !q.items[k].orphaned
    requires !(op.OpenFailsOp? && q.cur == InMap(k))
    ensures k in Apply(c, q, op).items
  {
    if op.OpenFailsOp? {
      OthersStayInMap(c, q, op.err, op.now, k);
    } else if op.FinishLastOp? {
      EndLeavesInMap(c, q, k);
    }
  }

  lemma OthersStayInMap(c: Config, q: Queue, err: OpenError, now: int, k: string)
    requires Inv(c, q) && Enabled(c, q, OpenFailsOp(err, now))
    requires k in q.items && !q.items[k].orphaned && q.cur != InMap(k)
    ensures k in PreflightFailed(c, q, err, now).items
  {
  }

  lemma EndLeavesInMap(c: Config, q: Queue, k: string)
    requires Inv(c, q) && Enabled(c, q, FinishLastOp) && k in q.items && !q.items[k].orphaned
    ensures k in FinishLast(q).items
  {
  }

  // Over every run a manual item stays in the queue, and manual, whatever folder
  // is switched to and whatever is sent, until its file cannot be opened or the
  // watcher reports another content for it.
  ghost predicate Undisturbed(c: Config, q: Queue, ops: seq<Op>, k: string)
    requires Execution(c, q, ops)
    decreases |ops|
  {
    ops == [] ||
    (!NewReport(q, ops[0], k) && !(ops[0].OpenFailsOp? && q.cur == InMap(k))
     && Undisturbed(c, Apply(c, q, ops[0]), ops[1..], k))
  }

  lemma ManualStep(c: Config, q: Queue, op: Op, k: string)
    requires Inv(c, q) && Enabled(c, q, op) && IsManual(q, k)
    requires !NewReport(q, op, k) && !(op.OpenFailsOp? && q.cur == InMap(k))
    ensures IsManual(Apply(c, q, op), k)
  {
    if op.ReadyOp? || op.SendOp? || op.RejectOp? {
      OutsideLeavesManual(c, q, op, k);
    } else if op.ClearOp? {
      ClearLeavesManual(q, op.keep, op.drops, k);
    } else if !FromOutside(op) {
      SectionLeavesManual(c, q, op, k);
    }
  }

  lemma {:induction false} ManualSurvives(c: Config, q: Queue, ops: seq<Op>, k: string)
    requires Inv(c, q) && IsManual(q, k) && Execution(c, q, ops) && Undisturbed(c, q, ops, k)
    ensures Inv(c, Final(c, q, ops)) && IsManual(Final(c, q, ops), k)
    decreases |ops|
  {
    if ops != [] {
      StepKeeps(c, q, ops[0]);
      ManualStep(c, q, ops[0], k);
      ManualSurvives(c, Apply(c, q, ops[0]), ops[1..], k);
    }
  }

  // So a file sent by hand is not filed: every check of the archive after the
  // request, however much later, stops it.
  lemma ManualIsNotFiled(c: Config, q: Queue, request: Op, q1: Queue, ops: seq<Op>, s: Queue)
    requires Inv(c, q) && Enabled(c, q, request) && request.SendOp? && q1 == Apply(c, q, request)
    requires Execution(c, q1, ops) && Undisturbed(c, q1, ops, Join(request.dir, request.base)) && s == Final(c, q1, ops)
    requires Enabled(c, s, CheckOp) && s.cur == InMap(Join(request.dir, request.base))
    ensures Apply(c, s, CheckOp).phase == Settled(Sent, FILE_SENT)
  {
    StepKeeps(c, q, request);
    SendMakesManual(c, q, request);
    ManualSurvives(c, q1, ops, Join(request.dir, request.base));
  }

  // The check stops the archive for a manual item or a pending resend only.
  lemma FiledIff(c: Config, q: Queue)
    requires Enabled(c, q, CheckOp)
    ensures Apply(c, q, CheckOp).phase == Moving(q.phase.src) <==> !CurrentRow(q).manual && !CurrentRow(q).resendAfter
    ensures Apply(c, q, CheckOp) == q.(phase := Apply(c, q, CheckOp).phase)
  {
  }

  // --- Retries -----------------------------------------------------------------

  // A retry puts an item that shows a failure, a rejection or an unfiled file
  // back in the queue at once, its failures forgotten; otherwise it does nothing.
  lemma RetryExact(c: Config, q: Queue, name: string)
    requires Inv(c, q)
    ensures var t := Retry(q, name);
            if name in q.items &&
               (q.items[name].state == Failed || q.items[name].state == Rejected || q.items[name].state == SentUnfiled) then
              && t.items.Keys == q.items.Keys && (forall k :: k in q.items && k != name ==> t.items[k] == q.items[k])
              && t.items[name] == q.items[name].(state := Pending, message := WAITING_TO_SEND,
                                                 failCount := 0, nextAttempt := None)
              && t.log == q.log + [Event(name, q.items[name].path, q.items[name].size, Pending, WAITING_TO_SEND,
                                         q.items[name].manual)]
            else t == q
  {
  }

  // --- Failures ----------------------------------------------------------------

  // The n-th failure in a row waits for the n-th entry of the backoff, and all
  // after the last entry for that one.
  function NthWait(c: Config, n: nat): nat
    requires c.backoff != [] && n >= 1
  {
    if n <= |c.backoff| then c.backoff[n - 1] else c.backoff[|c.backoff| - 1]
  }

  lemma FailureExact(c: Config, q: Queue, now: int)
    requires Inv(c, q) && Enabled(c, q, FailOp(now))
    ensures var r, t := CurrentRow(q), CurrentRow(RecordFailure(c, q, now));
            && t == r.(state := Failed, message := q.phase.result.text,
                       failCount := t.failCount, nextAttempt := t.nextAttempt)
            && if q.phase.result.UserCanceled? then t.failCount == r.failCount && t.nextAttempt == None
               else t.failCount == r.failCount + 1 && t.nextAttempt == Some(now + NthWait(c, r.failCount + 1))
  {
  }

  // A file that cannot be opened, of an item still in the map: an orphan goes, and
  // so does an item whose file has vanished.
  lemma OpenFailureDrops(c: Config, q: Queue, err: OpenError, now: int)
    requires Inv(c, q) && Enabled(c, q, OpenFailsOp(err, now)) && q.cur.InMap?
    requires CurrentRow(q).orphaned || (err.NotExist? && !CurrentRow(q).resendAfter)
    ensures PreflightFailed(c, q, err, now).items == q.items - {q.cur.name}
    ensures PreflightFailed(c, q, err, now).cur == Nothing && PreflightFailed(c, q, err, now).phase == Idle
    ensures var r := CurrentRow(q);
            PreflightFailed(c, q, err, now).log ==
            if r.state == Sent || r.state == Dropped then q.log
            else q.log + [Event(r.name, r.path, r.size, Dropped,
                                if r.orphaned then "Watch folder changed"
                                else if r.root == "" then "File no longer exists" else "No longer in the watch folder",
                                r.manual)]
  {
  }

  // Otherwise a name the controller refuses shows as rejected and is not tried
  // again, and anything else waits for the first entry of the backoff.
  lemma OpenFailureKeeps(c: Config, q: Queue, err: OpenError, now: int)
    requires Inv(c, q) && Enabled(c, q, OpenFailsOp(err, now)) && q.cur.InMap?
    requires !CurrentRow(q).orphaned && !(err.NotExist? && !CurrentRow(q).resendAfter)
    ensures PreflightFailed(c, q, err, now).items ==
            q.items[q.cur.name := CurrentRow(q).(
              state := if err.BadTarget? then Rejected else Pending,
              message := if err.BadTarget? then err.reason else WAITING_TO_SEND,
              nextAttempt := if err.BadTarget? then None else Some(now + c.backoff[0]),
              sending := false, resendAfter := false)]
    ensures PreflightFailed(c, q, err, now).cur == Nothing && PreflightFailed(c, q, err, now).phase == Idle
  {
  }

  // --- Successes -----------------------------------------------------------------

  // What the goroutine uploads and files is what the item says when it starts.
  lemma SnapshotExact(c: Config, q: Queue)
    requires Enabled(c, q, SnapshotOp)
    ensures var r, t := CurrentRow(q), Apply(c, q, SnapshotOp);
            && t == q.(phase := t.phase) && t.phase.Opening?
            && t.phase.src.root == r.root && t.phase.src.dir == r.dir
            && t.phase.src.base == r.base && t.phase.src.path == r.path
  {
  }

  // The archive later compares with the size and time of the file that was opened.
  lemma OpenedExact(c: Config, q: Queue, op: Op)
    requires Enabled(c, q, op) && op.OpenOp?
    ensures var src := q.phase.src;
            Apply(c, q, op) == q.(phase := Opened(Source(src.root, src.dir, src.base, src.path, op.size, op.modTime)))
  {
  }

  // A filed file is to show as sent, one that has changed as sent and left in
  // place, and one that could not be filed as unfiled; a failed attempt is followed
  // by another check.
  lemma OutcomeExact(c: Config, q: Queue, op: Op)
    requires Enabled(c, q, op) && (op.MoveOp? || op.GiveUpOp?)
    ensures Apply(c, q, op) == q.(phase :=
              if op == MoveOp(AttemptFailed) then Archiving(q.phase.src)
              else if op == MoveOp(FileChanged) then Settled(Sent, CHANGED_AFTER)
              else if op == MoveOp(Moved) then Settled(Sent, FILE_SENT)
              else Settled(SentUnfiled, op.message))
  {
  }

  // And so it does, in the item and in an event.
  lemma SettleExact(c: Config, q: Queue, k: string)
    requires Inv(c, q) && Enabled(c, q, SettleOp) && q.cur == InMap(k)
    ensures var t, r := Apply(c, q, SettleOp), q.items[k].(state := q.phase.state, message := q.phase.message);
            t.items == q.items[k := r] && t.cur == q.cur && t.log == q.log + [EventOf(r)]
  {
  }

  // At the end of a send an orphan goes; an item with nothing more to send, or one
  // whose send failed, is let go as it is.
  lemma ReleaseExact(c: Config, q: Queue, k: string)
    requires Inv(c, q) && Enabled(c, q, FinishLastOp) && q.cur == InMap(k)
    ensures var r, t := q.items[k], FinishLast(q);
            && t.cur == Nothing && t.phase == Idle
            && (r.orphaned ==> t.items == q.items - {k})
            && (!r.orphaned && !(q.phase.ok && (q.phase.resendDue || r.resendAfter)) ==>
                  t.items == q.items[k := r.(sending := false, resendAfter := false)] && t.log == q.log)
  {
  }
}
