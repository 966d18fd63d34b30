// A folder switch (internal/engine/scheduler.go: clearNonManual): what it leaves
// in the queue, and what can be sent after it.
module QueueSwitch {
  import opened Bytes
  import opened UploadQueue
  import opened QueueRuns
  import opened QueueTheorems

  // A switch to keep leaves manual items and those of keep exactly as they are;
  // of the others it orphans the one being sent and drops the rest.
  lemma SwitchExact(q: Queue, keep: string, drops: seq<Event>, k: string)
    ensures var t := ClearNonManual(q, keep, drops);
            if k !in q.items then k !in t.items
            else
              var r := q.items[k];
              if r.manual || (keep != "" && r.root == keep) then k in t.items && t.items[k] == r
              else if r.sending then k in t.items && t.items[k] == r.(orphaned := true)
              else k !in t.items
    ensures ClearNonManual(q, keep, drops).log == q.log + drops && ClearNonManual(q, keep, drops).phase == q.phase
  {
  }

  // Each item dropped is reported once, unless it showed Sent or Dropped, and
  // nothing else is reported.
  lemma SwitchReports(c: Config, q: Queue, keep: string, drops: seq<Event>, k: string)
    requires Inv(c, q) && DropsOf(q, keep, drops)
    ensures EventsNamed(drops, k) ==
            if k in q.items && k !in ClearNonManual(q, keep, drops).items
               && q.items[k].state != Sent && q.items[k].state != Dropped
            then [Event(k, q.items[k].path, q.items[k].size, Dropped, FOLDER_CHANGED, false)] else []
  {
  }

  // What is in the queue under k is gone with the folder left behind: if it is
  // there, it is manual, or from keep, or an orphan.
  predicate LeftBehind(q: Queue, k: string, keep: string) {
    k in q.items ==>
      var r := q.items[k];
      r.manual || (keep != "" && r.root == keep) || r.orphaned
  }

  // The item keeps its folder and its manual flag; an orphan stays one.
  ghost predicate SamePlace(q: Queue, t: Queue, k: string) {
    k in t.items ==>
      && k in q.items && t.items[k].root == q.items[k].root && t.items[k].manual == q.items[k].manual
      && (q.items[k].orphaned ==> t.items[k].orphaned)
  }

  predicate Locates(op: Op, k: string) {
    (op.ReadyOp? || op.SendOp? || op.RejectOp?) && Join(op.dir, op.base) == k
  }

  lemma OtherReportsSamePlace(c: Config, q: Queue, op: Op, k: string)
    requires Enabled(c, q, op) && (op.ReadyOp? || op.SendOp? || op.RejectOp?) && !Locates(op, k)
    ensures SamePlace(q, Apply(c, q, op), k)
  {
  }

  lemma PutSamePlace(q: Queue, r: Row, k: string)
    requires HasCurrent(q) && r.root == CurrentRow(q).root
    requires r.manual == CurrentRow(q).manual && r.orphaned == CurrentRow(q).orphaned
    ensures SamePlace(q, SetCurrent(q, r), k)
  {
  }

  lemma OpenFailsSamePlace(c: Config, q: Queue, err: OpenError, now: int, k: string)
    requires HasCurrent(q) && c.backoff != []
    ensures SamePlace(q, PreflightFailed(c, q, err, now), k)
  {
  }

  lemma EndSamePlace(q: Queue, k: string)
    requires HasCurrent(q) && q.phase.Recorded?
    ensures SamePlace(q, FinishLast(q), k)
  {
  }

  lemma FailSamePlace(c: Config, q: Queue, now: int, k: string)
    requires HasCurrent(q) && q.phase.Settling? && !q.phase.result.Succeeded? && c.backoff != []
    ensures SamePlace(q, RecordFailure(c, q, now), k)
  {
    FailedRowHolds(c, CurrentRow(q), q.phase.result, now);
    PutSamePlace(q, FailedRow(c, CurrentRow(q), q.phase.result, now), k);
  }

  lemma TerminalSamePlace(q: Queue, state: TransferState, message: string, resend: bool, k: string)
    requires HasCurrent(q)
    ensures SamePlace(q, SetTerminal(q, state, message, resend), k)
  {
    PutSamePlace(q, CurrentRow(q).(state := state, message := message), k);
  }

  lemma SectionSamePlace(c: Config, q: Queue, op: Op, k: string)
    requires Enabled(c, q, op) && !FromOutside(op)
    ensures SamePlace(q, Apply(c, q, op), k)
  {
    match op
    case OpenFailsOp(err, now) => OpenFailsSamePlace(c, q, err, now, k);
    case FailOp(now) => FailSamePlace(c, q, now, k);
    case MarkOp => PutSamePlace(q, CurrentRow(MarkSending(q)), k);
    case FinishFirstOp => PutSamePlace(q, CurrentRow(FinishFirst(q)), k);
    case ResendSoonOp => TerminalSamePlace(q, Sent, FILE_SENT, true, k);
    case SettleOp => TerminalSamePlace(q, q.phase.state, q.phase.message, false, k);
    case FinishLastOp => EndSamePlace(q, k);
    case _ =>
  }

  lemma StepSamePlace(c: Config, q: Queue, op: Op, k: string)
    requires Inv(c, q) && Enabled(c, q, op) && !Locates(op, k)
    ensures SamePlace(q, Apply(c, q, op), k)
  {
    if op.ReadyOp? || op.SendOp? || op.RejectOp? {
      OtherReportsSamePlace(c, q, op, k);
    } else if !FromOutside(op) {
      SectionSamePlace(c, q, op, k);
    }
  }

  lemma {:induction false} StaysLeftBehind(c: Config, q: Queue, ops: seq<Op>, k: string, keep: string)
    requires Inv(c, q) && Execution(c, q, ops) && LeftBehind(q, k, keep)
    requires forall i :: 0 <= i < |ops| ==> !Locates(ops[i], k)
    ensures Inv(c, Final(c, q, ops)) && LeftBehind(Final(c, q, ops), k, keep)
    decreases |ops|
  {
    if ops != [] {
      StepKeeps(c, q, ops[0]);
      StepSamePlace(c, q, ops[0], k);
      assert forall i :: 0 <= i < |ops| - 1 ==> ops[1..][i] == ops[i + 1];
      StaysLeftBehind(c, Apply(c, q, ops[0]), ops[1..], k, keep);
    }
  }

  // In every run after a switch to keep, an item chosen before its name has been
  // reported or asked for again was queued by hand or belongs to keep.
  lemma OnlyKeptIsChosen(
      c: Config, q: Queue, keep: string, drops: seq<Event>, t: Queue, ops: seq<Op>, s: Queue, now: int, k: string)
    requires Inv(c, q) && Enabled(c, q, ClearOp(keep, drops)) && t == Apply(c, q, ClearOp(keep, drops))
    requires Execution(c, t, ops) && s == Final(c, t, ops)
    requires forall i :: 0 <= i < |ops| ==> !Locates(ops[i], k)
    requires Enabled(c, s, ChooseOp(now, k))
    ensures s.items[k].manual || (keep != "" && s.items[k].root == keep)
  {
    AfterSwitch(c, q, ClearOp(keep, drops), k);
    StaysLeftBehind(c, t, ops, k, keep);
    ChosenIsNoOrphan(c, s, now, k);
  }

  lemma AfterSwitch(c: Config, q: Queue, op: Op, k: string)
    requires Inv(c, q) && Enabled(c, q, op) && op.ClearOp?
    ensures Inv(c, Apply(c, q, op)) && LeftBehind(Apply(c, q, op), k, op.keep)
  {
    StepKeeps(c, q, op);
    SwitchExact(q, op.keep, op.drops, k);
  }

  lemma ChosenIsNoOrphan(c: Config, q: Queue, now: int, k: string)
    requires Inv(c, q) && Enabled(c, q, ChooseOp(now, k))
    ensures k in q.items && !q.items[k].orphaned
  {
  }

  // A report or a request says which folder its item belongs to from then on.
  ghost predicate PlacedBy(t: Queue, op: Op)
    requires op.ReadyOp? || op.SendOp? || op.RejectOp?
  {
    var k := Join(op.dir, op.base);
    && k in t.items && t.items[k].root == op.root && t.items[k].dir == op.dir && t.items[k].base == op.base
    && t.items[k].path == op.path && !t.items[k].orphaned
  }

  lemma ReportPlaces(c: Config, q: Queue, op: Op)
    requires Enabled(c, q, op) && (op.ReadyOp? || op.SendOp? || op.RejectOp?)
    ensures PlacedBy(Apply(c, q, op), op)
  {
    if op.ReadyOp? {
      var q1 := ItemLocked(q, op.root, op.dir, op.base);
      var k := Join(op.dir, op.base);
      assert PlacedBy(q1.(items := q1.items[k := q1.items[k].(path := op.path)]), op);
    }
  }
}
