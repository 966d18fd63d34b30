// One send of the upload queue, from the choice of its item to its release, with
// reports, manual sends, retries and folder switches arriving at any point of it.
module QueueSends {
  import opened Bytes
  import opened UploadQueue
  import opened QueueRuns
  import opened QueueTheorems

  predicate Reports(op: Op, k: string) {
    (op.ReadyOp? || op.SendOp?) && Join(op.dir, op.base) == k
  }

  predicate Releases(op: Op) {
    op.FinishLastOp? || op.OpenFailsOp?
  }

  predicate Uninterrupted(ops: seq<Op>) {
    forall i :: 0 <= i < |ops| ==> !Releases(ops[i])
  }

  // Queued and due at once.
  predicate Due(r: Row) {
    r.state.Pending? && r.nextAttempt.None? && !r.sending
  }

  // --- What has been heard of the item ---------------------------------------------

  // The last report; the size on record since; whether sendOne has recorded the
  // size of the open file after it; that size; whether the folder was switched.
  datatype Told = Told(path: string, size: int, modTime: int)

  datatype Heard = Heard(told: Option<Told>, size: int, marked: bool, atOpen: Option<int>, cleared: bool)

  const NOTHING_HEARD := Heard(None, 0, false, None, false)

  function ToldBy(op: Op): Told
    requires op.ReadyOp? || op.SendOp?
  {
    Told(op.path, op.size, op.modTime)
  }

  predicate Shows(r: Row, told: Told) {
    SameContent(r, told.path, told.size, told.modTime)
  }

  function Hear(k: string, h: Heard, op: Op): Heard {
    if Reports(op, k) then h.(told := Some(ToldBy(op)), size := op.size, marked := false)
    else if op.OpenOp? && h.atOpen.None? then h.(atOpen := Some(op.size))
    else if op.MarkOp? then h.(size := if h.atOpen.Some? then h.atOpen.value else h.size, marked := true)
    else if op.ClearOp? then h.(cleared := true)
    else h
  }

  function HearAll(k: string, h: Heard, ops: seq<Op>): Heard
    decreases |ops|
  {
    if ops == [] then h else HearAll(k, Hear(k, h, ops[0]), ops[1..])
  }

  predicate Marks(ops: seq<Op>) {
    exists i :: 0 <= i < |ops| && ops[i].MarkOp?
  }

  predicate Switches(ops: seq<Op>) {
    exists i :: 0 <= i < |ops| && ops[i].ClearOp?
  }

  // The size the file had when it was opened.
  function SizeOpened(ops: seq<Op>): Option<int>
    decreases |ops|
  {
    if ops == [] then None else if ops[0].OpenOp? then Some(ops[0].size) else SizeOpened(ops[1..])
  }

  lemma {:induction false} HeardAlways(k: string, h: Heard, ops: seq<Op>)
    ensures HearAll(k, h, ops).cleared <==> h.cleared || Switches(ops)
    ensures HearAll(k, h, ops).atOpen == if h.atOpen.Some? then h.atOpen else SizeOpened(ops)
    decreases |ops|
  {
    if ops != [] {
      HeardAlways(k, Hear(k, h, ops[0]), ops[1..]);
      assert forall i :: 0 <= i < |ops| - 1 ==> ops[1..][i] == ops[i + 1];
      if j :| 0 < j < |ops| && ops[j].ClearOp? { assert ops[1..][j - 1] == ops[j]; }
    }
  }

  lemma {:induction false} HeardSince(k: string, h: Heard, ops: seq<Op>)
    requires forall i :: 0 <= i < |ops| ==> !Reports(ops[i], k)
    ensures HearAll(k, h, ops).told == h.told
    ensures HearAll(k, h, ops).marked <==> h.marked || Marks(ops)
    ensures !HearAll(k, h, ops).marked ==> HearAll(k, h, ops).size == h.size
    decreases |ops|
  {
    if ops != [] {
      assert !Reports(ops[0], k);
      HeardSince(k, Hear(k, h, ops[0]), ops[1..]);
      assert forall i :: 0 <= i < |ops| - 1 ==> ops[1..][i] == ops[i + 1];
      if j :| 0 < j < |ops| && ops[j].MarkOp? { assert ops[1..][j - 1] == ops[j]; }
    }
  }

  // Op i is the last report.
  predicate LastReport(k: string, ops: seq<Op>, i: nat) {
    i < |ops| && Reports(ops[i], k) && forall j :: i < j < |ops| ==> !Reports(ops[j], k)
  }

  lemma {:induction false} HeardLast(k: string, h: Heard, ops: seq<Op>, i: nat)
    requires LastReport(k, ops, i)
    ensures var e := HearAll(k, h, ops);
            && e.told == Some(ToldBy(ops[i])) && (e.marked <==> Marks(ops[i + 1..]))
            && (!e.marked ==> e.size == ops[i].size)
    decreases |ops|
  {
    if i == 0 {
      HeardSince(k, Hear(k, h, ops[0]), ops[1..]);
    } else {
      HeardLast(k, Hear(k, h, ops[0]), ops[1..], i - 1);
      assert ops[1..][i - 1 + 1..] == ops[i + 1..];
    }
  }

  // --- The item while its send lasts -------------------------------------------------

  predicate InHand(r: Row, h: Heard) {
    && (h.told.Some? ==> Shows(r.(size := h.told.value.size), h.told.value) && r.size == h.size)
    && (r.orphaned ==> h.cleared)
  }

  // The item that has taken the name over, if the folder has not been switched since.
  predicate Beside(items: map<string, Row>, k: string, h: Heard) {
    if k in items then Due(items[k]) && !items[k].orphaned && h.told.Some? && Shows(items[k], h.told.value)
    else h.cleared
  }

  predicate HeardOk(h: Heard, p: Phase) {
    && (p.Opened? ==> h.atOpen == Some(p.src.size))
    && (h.atOpen.None? <==> p.Chosen? || p.Opening?)
    && (h.marked ==> h.atOpen == Some(h.size))
  }

  ghost predicate Follows(q: Queue, k: string, h: Heard) {
    && HeardOk(h, q.phase) && !q.phase.Idle?
    && if q.cur == InMap(k) then k in q.items && q.items[k].sending && InHand(q.items[k], h)
       else q.cur.Detached? && q.cur.row.name == k && q.cur.row.orphaned && Beside(q.items, k, h)
  }

  // What a report of k does: an item it finds keeps its place and takes the
  // content; a free name, or an orphan's, gets an item that is due.
  ghost predicate Reported(q: Queue, t: Queue, k: string, told: Told) {
    && t.phase == q.phase && k in t.items && Shows(t.items[k], told) && !t.items[k].orphaned
    && if k in q.items && !q.items[k].orphaned then
         && t.cur == q.cur && t.items[k].sending == q.items[k].sending
         && (Due(q.items[k]) ==> Due(t.items[k]))
         && (q.items[k].sending ==>
               t.items[k].state == q.items[k].state && t.items[k].nextAttempt == q.items[k].nextAttempt)
       else
         && t.cur == (if q.cur == InMap(k) && k in q.items then Detached(q.items[k]) else q.cur)
         && Due(t.items[k])
  }

  lemma ReadyReported(c: Config, q: Queue, op: Op)
    requires Enabled(c, q, op) && op.ReadyOp?
    ensures Reported(q, Apply(c, q, op), Join(op.dir, op.base), ToldBy(op))
  {
  }

  lemma SendReported(c: Config, q: Queue, op: Op)
    requires Enabled(c, q, op) && op.SendOp?
    ensures Reported(q, Apply(c, q, op), Join(op.dir, op.base), ToldBy(op))
  {
  }

  lemma ReportFollows(q: Queue, t: Queue, k: string, h: Heard, told: Told)
    requires Follows(q, k, h) && Reported(q, t, k, told) && (k in q.items ==> q.items[k].name == k)
    ensures Follows(t, k, h.(told := Some(told), size := told.size, marked := false))
  {
  }

  // What another name's report, or a rejection, does to k: nothing.
  ghost predicate Apart(q: Queue, t: Queue, k: string) {
    && t.phase == q.phase && (k in t.items <==> k in q.items) && (k in q.items ==> t.items[k] == q.items[k])
    && (q.cur == InMap(k) || q.cur.Detached? ==> t.cur == q.cur)
  }

  lemma OtherApart(c: Config, q: Queue, op: Op, k: string)
    requires Enabled(c, q, op) && (op.ReadyOp? || op.SendOp? || op.RejectOp?) && Join(op.dir, op.base) != k
    ensures Apart(q, Apply(c, q, op), k)
  {
  }

  lemma ChosenFollows(c: Config, q: Queue, now: int, k: string)
    requires Inv(c, q) && Enabled(c, q, ChooseOp(now, k))
    ensures Inv(c, Choose(q, k)) && Follows(Choose(q, k), k, NOTHING_HEARD)
  {
    StepKeeps(c, q, ChooseOp(now, k));
  }

  lemma ApartFollows(q: Queue, t: Queue, k: string, h: Heard)
    requires Follows(q, k, h) && Apart(q, t, k)
    ensures Follows(t, k, h)
  {
  }

  // What a retry or a section of the goroutine does to the item in hand: it keeps
  // its place and its file; size tells the size on record.
  ghost predicate Handled(q: Queue, t: Queue, k: string, size: int) {
    if q.cur == InMap(k) then
      && k in q.items && t.cur == q.cur && k in t.items
      && Shows(t.items[k].(size := 0), Told(q.items[k].path, 0, q.items[k].modTime)) && t.items[k].size == size
      && t.items[k].orphaned == q.items[k].orphaned && t.items[k].sending == q.items[k].sending
    else
      && q.cur.Detached? && t.cur.Detached?
      && t.cur.row.name == q.cur.row.name && t.cur.row.orphaned == q.cur.row.orphaned
      && (k in t.items <==> k in q.items) && (k in q.items ==> t.items[k] == q.items[k])
  }

  lemma HandledFollows(q: Queue, t: Queue, k: string, h: Heard, g: Heard, size: int)
    requires Follows(q, k, h) && HeardOk(g, t.phase) && !t.phase.Idle? && Handled(q, t, k, size)
    requires h.told.Some? && q.cur == InMap(k) ==> size == g.size
    requires g.told == h.told && g.cleared == h.cleared
    ensures Follows(t, k, g)
  {
  }

  // The size the item in hand has after the operation.
  function SizeAfter(q: Queue, op: Op, k: string): int {
    if op.MarkOp? && q.phase.Opened? then q.phase.src.size else if k in q.items then q.items[k].size else 0
  }

  lemma RetryHandled(q: Queue, name: string, k: string, h: Heard)
    requires Follows(q, k, h)
    ensures Handled(q, Retry(q, name), k, if k in q.items then q.items[k].size else 0)
    ensures Retry(q, name).phase == q.phase
  {
  }

  lemma PutHandled(q: Queue, k: string, h: Heard, r: Row, log: seq<Event>, p: Phase)
    requires Follows(q, k, h) && HasCurrent(q)
    requires r == CurrentRow(q).(size := r.size, state := r.state, message := r.message, failCount := r.failCount,
                                 nextAttempt := r.nextAttempt, resendAfter := r.resendAfter)
    ensures Handled(q, SetCurrent(q, r).(log := log, phase := p), k, r.size)
  {
  }

  lemma TerminalHandled(q: Queue, k: string, h: Heard, state: TransferState, message: string, resend: bool)
    requires Follows(q, k, h) && HasCurrent(q)
    ensures Handled(q, SetTerminal(q, state, message, resend), k, CurrentRow(q).size)
  {
    var r := CurrentRow(q).(state := state, message := message);
    var t := SetTerminal(q, state, message, resend);
    PutHandled(q, k, h, r, t.log, t.phase);
  }

  lemma FailHandled(c: Config, q: Queue, k: string, h: Heard, now: int)
    requires Follows(q, k, h) && Enabled(c, q, FailOp(now))
    ensures Handled(q, RecordFailure(c, q, now), k, CurrentRow(q).size)
  {
    var r := FailedRow(c, CurrentRow(q), q.phase.result, now);
    FailedRowHolds(c, CurrentRow(q), q.phase.result, now);
    var t := RecordFailure(c, q, now);
    PutHandled(q, k, h, r, t.log, t.phase);
  }

  lemma MarkHandled(c: Config, q: Queue, k: string, h: Heard)
    requires Follows(q, k, h) && Enabled(c, q, MarkOp)
    ensures Handled(q, MarkSending(q), k, q.phase.src.size)
  {
    var t := MarkSending(q);
    PutHandled(q, k, h, CurrentRow(q).(size := q.phase.src.size, state := Sending, message := SENDING), t.log, t.phase);
  }

  lemma FinishFirstHandled(c: Config, q: Queue, k: string, h: Heard)
    requires Follows(q, k, h) && Enabled(c, q, FinishFirstOp)
    ensures Handled(q, FinishFirst(q), k, CurrentRow(q).size)
  {
    var t := FinishFirst(q);
    PutHandled(q, k, h, CurrentRow(q).(resendAfter := false), t.log, t.phase);
  }

  lemma SectionHandled(c: Config, q: Queue, op: Op, k: string, h: Heard)
    requires Follows(q, k, h) && Enabled(c, q, op) && !FromOutside(op) && !Releases(op)
    ensures Handled(q, Apply(c, q, op), k, SizeAfter(q, op, k))
  {
    if op.FailOp? {
      FailHandled(c, q, k, h, op.now);
    } else if op.MarkOp? {
      MarkHandled(c, q, k, h);
    } else if op.FinishFirstOp? {
      FinishFirstHandled(c, q, k, h);
    } else if op.ResendSoonOp? {
      TerminalHandled(q, k, h, Sent, FILE_SENT, true);
    } else if op.SettleOp? {
      TerminalHandled(q, k, h, q.phase.state, q.phase.message, false);
    }
  }

  // The phases a send goes through, once each.
  lemma SectionHeard(c: Config, q: Queue, op: Op, k: string, h: Heard)
    requires HeardOk(h, q.phase) && !q.phase.Idle? && Enabled(c, q, op) && !FromOutside(op) && !Releases(op)
    ensures HeardOk(Hear(k, h, op), Apply(c, q, op).phase) && !Apply(c, q, op).phase.Idle?
  {
  }

  lemma SectionFollows(c: Config, q: Queue, op: Op, k: string, h: Heard)
    requires Follows(q, k, h) && Enabled(c, q, op) && !FromOutside(op) && !Releases(op)
    ensures Follows(Apply(c, q, op), k, Hear(k, h, op))
  {
    SectionHandled(c, q, op, k, h);
    SectionHeard(c, q, op, k, h);
    HandledFollows(q, Apply(c, q, op), k, h, Hear(k, h, op), SizeAfter(q, op, k));
  }

  lemma ClearFollows(q: Queue, k: string, h: Heard, keep: string, drops: seq<Event>)
    requires Follows(q, k, h) && (forall n :: n in q.items ==> q.items[n].name == n)
    ensures Follows(ClearNonManual(q, keep, drops), k, h.(cleared := true))
  {
  }

  // --- A whole send ------------------------------------------------------------------

  lemma ReportedFollows(c: Config, q: Queue, op: Op, dir: string, base: string, h: Heard)
    requires Inv(c, q) && Follows(q, Join(dir, base), h) && Enabled(c, q, op)
    requires (op.ReadyOp? || op.SendOp? || op.RejectOp?) && Join(op.dir, op.base) == Join(dir, base)
    requires BaseName(base) && c.accepts(dir, base)
    ensures Follows(Apply(c, q, op), Join(dir, base), Hear(Join(dir, base), h, op))
  {
    JoinInjective(dir, base, op.dir, op.base);
    if op.ReadyOp? { ReadyReported(c, q, op); } else { SendReported(c, q, op); }
    ReportFollows(q, Apply(c, q, op), Join(dir, base), h, ToldBy(op));
  }

  lemma OutsideFollows(c: Config, q: Queue, op: Op, dir: string, base: string, h: Heard)
    requires Inv(c, q) && Follows(q, Join(dir, base), h) && Enabled(c, q, op) && FromOutside(op)
    requires BaseName(base) && c.accepts(dir, base)
    ensures Follows(Apply(c, q, op), Join(dir, base), Hear(Join(dir, base), h, op))
  {
    var k, t := Join(dir, base), Apply(c, q, op);
    if op.ClearOp? {
      ClearFollows(q, k, h, op.keep, op.drops);
    } else if op.RetryOp? {
      RetryHandled(q, op.name, k, h);
      HandledFollows(q, t, k, h, h, if k in q.items then q.items[k].size else 0);
    } else if Join(op.dir, op.base) != k {
      OtherApart(c, q, op, k);
      ApartFollows(q, t, k, h);
    } else {
      ReportedFollows(c, q, op, dir, base, h);
    }
  }

  // Some report of k in the run has a content that is not the one then on record.
  ghost predicate ChangedIn(c: Config, q: Queue, ops: seq<Op>, k: string)
    requires Execution(c, q, ops)
    decreases |ops|
  {
    ops != [] &&
    ((Reports(ops[0], k) && Changes(q, ops[0])) || ChangedIn(c, Apply(c, q, ops[0]), ops[1..], k))
  }

  lemma OwedFollows(c: Config, q: Queue, op: Op, dir: string, base: string)
    requires Inv(c, q) && Enabled(c, q, op) && !q.phase.Idle? && BaseName(base) && c.accepts(dir, base)
    requires Owed(q, Join(dir, base)) || (Reports(op, Join(dir, base)) && Changes(q, op))
    ensures Owed(Apply(c, q, op), Join(dir, base))
  {
    if Reports(op, Join(dir, base)) && Changes(q, op) {
      ReportOwes(c, q, op);
    } else {
      OwedStep(c, q, op, dir, base);
    }
  }

  lemma {:induction false} RunFollows(c: Config, q: Queue, ops: seq<Op>, dir: string, base: string, h: Heard)
    requires Inv(c, q) && Follows(q, Join(dir, base), h) && Execution(c, q, ops) && Uninterrupted(ops)
    requires BaseName(base) && c.accepts(dir, base)
    ensures var s := Final(c, q, ops);
            && Inv(c, s) && Follows(s, Join(dir, base), HearAll(Join(dir, base), h, ops))
            && (Owed(q, Join(dir, base)) || ChangedIn(c, q, ops, Join(dir, base)) ==> Owed(s, Join(dir, base)))
    decreases |ops|
  {
    if ops != [] {
      var op, k := ops[0], Join(dir, base);
      StepKeeps(c, q, op);
      if FromOutside(op) { OutsideFollows(c, q, op, dir, base, h); } else { SectionFollows(c, q, op, k, h); }
      if Owed(q, k) || (Reports(op, k) && Changes(q, op)) { OwedFollows(c, q, op, dir, base); }
      assert forall i :: 0 <= i < |ops| - 1 ==> ops[1..][i] == ops[i + 1];
      RunFollows(c, Apply(c, q, op), ops[1..], dir, base, Hear(k, h, op));
    }
  }

  // The last section of a successful send that owes another.
  lemma SendEnds(c: Config, s: Queue, k: string, h: Heard)
    requires Inv(c, s) && Follows(s, k, h) && Enabled(c, s, FinishLastOp) && s.phase.ok
    requires Owed(s, k) && h.told.Some?
    ensures var t := FinishLast(s);
            && (k in t.items ==> Due(t.items[k]) && Shows(t.items[k].(size := h.told.value.size), h.told.value))
            && (k in t.items ==> t.items[k].size == if s.cur == InMap(k) then h.size else h.told.value.size)
            && (k !in t.items ==> h.cleared)
  {
  }

  // The item of k at the end of a send in which a report has changed its content,
  // report i being the last. Its size is the report's, unless the goroutine has
  // recorded the size of the file it had open after that report and still holds
  // the item.
  ghost predicate Requeued(s: Queue, t: Queue, k: string, ops: seq<Op>, i: nat)
    requires i < |ops| && Reports(ops[i], k)
  {
    if k in t.items then
      && Due(t.items[k]) && t.items[k].path == ops[i].path && t.items[k].modTime == ops[i].modTime
      && if s.cur == InMap(k) && Marks(ops[i + 1..]) then Some(t.items[k].size) == SizeOpened(ops)
         else t.items[k].size == ops[i].size
    else Switches(ops)
  }

  // A change reported at any point of a send that succeeds, among whatever else
  // arrives: when the send has settled the item is due at once with the last
  // report's path and time, or a folder switch has dropped it.
  lemma ChangeDuringSuccessRequeues(
      c: Config, q: Queue, now: int, dir: string, base: string, k: string, q1: Queue, ops: seq<Op>, s: Queue, i: nat)
    requires Inv(c, q) && BaseName(base) && c.accepts(dir, base) && k == Join(dir, base)
    requires Enabled(c, q, ChooseOp(now, k)) && q1 == Choose(q, k)
    requires Enabled(c, s, FinishLastOp) && s.phase.ok && LastReport(k, ops, i)
    requires Execution(c, q1, ops) && Uninterrupted(ops) && s == Final(c, q1, ops) && ChangedIn(c, q1, ops, k)
    ensures Requeued(s, FinishLast(s), k, ops, i)
  {
    ChosenFollows(c, q, now, k);
    RunFollows(c, q1, ops, dir, base, NOTHING_HEARD);
    HeardOfSend(k, ops, i);
    RequeuedAtEnd(c, s, k, ops, i, HearAll(k, NOTHING_HEARD, ops));
  }

  // What has been heard is what the run says, report i being the last.
  predicate HeardRightly(h: Heard, k: string, ops: seq<Op>, i: nat)
    requires LastReport(k, ops, i)
  {
    && h.told == Some(ToldBy(ops[i])) && (h.marked <==> Marks(ops[i + 1..])) && (!h.marked ==> h.size == ops[i].size)
    && (h.cleared <==> Switches(ops)) && h.atOpen == SizeOpened(ops)
  }

  lemma HeardOfSend(k: string, ops: seq<Op>, i: nat)
    requires LastReport(k, ops, i)
    ensures HeardRightly(HearAll(k, NOTHING_HEARD, ops), k, ops, i)
  {
    HeardLast(k, NOTHING_HEARD, ops, i);
    HeardAlways(k, NOTHING_HEARD, ops);
  }

  lemma RequeuedAtEnd(c: Config, s: Queue, k: string, ops: seq<Op>, i: nat, h: Heard)
    requires Inv(c, s) && Follows(s, k, h) && Enabled(c, s, FinishLastOp) && s.phase.ok && Owed(s, k)
    requires LastReport(k, ops, i) && HeardRightly(h, k, ops, i)
    ensures Requeued(s, FinishLast(s), k, ops, i)
  {
    SendEnds(c, s, k, h);
  }

  // --- Failed sends ------------------------------------------------------------------

  // After a send that failed the item is due again, at some time, exactly when the
  // failure left it a time or it has been retried by hand since.
  lemma DueAfterFailedSend(c: Config, q: Queue)
    requires Inv(c, q) && Enabled(c, q, FinishLastOp) && !q.phase.ok && !CurrentRow(q).orphaned
    ensures var r := CurrentRow(q);
            var t := FinishLast(q);
            && r.name in t.items
            && ((exists later :: Candidate(t.items[r.name], later)) <==> r.state.Pending? || r.nextAttempt.Some?)
  {
    var r := CurrentRow(q);
    var u := r.(resendAfter := false, sending := false);
    assert FinishLast(q).items == q.items[r.name := u];
    assert Candidate(u, if u.nextAttempt.Some? then u.nextAttempt.value else 0)
        <==> r.state.Pending? || r.nextAttempt.Some?;
  }

  // The failure of k has been recorded and stands.
  ghost predicate Stands(q: Queue, k: string, due: Option<int>) {
    && q.phase.Recorded? && !q.phase.ok && HasCurrent(q)
    && CurrentRow(q).name == k && CurrentRow(q).state.Failed? && CurrentRow(q).nextAttempt == due
  }

  lemma ReportStands(c: Config, q: Queue, op: Op, k: string, due: Option<int>)
    requires Inv(c, q) && Enabled(c, q, op) && Stands(q, k, due) && (op.ReadyOp? || op.SendOp? || op.RejectOp?)
    ensures Stands(Apply(c, q, op), k, due)
  {
    if !op.RejectOp? && Join(op.dir, op.base) == k {
      if op.ReadyOp? { ReadyReported(c, q, op); } else { SendReported(c, q, op); }
    } else if Join(op.dir, op.base) != k {
      OtherApart(c, q, op, k);
    } else {
      JoinInjective(op.dir, op.base, CurrentRow(q).dir, CurrentRow(q).base);
    }
  }

  lemma ClearStands(c: Config, q: Queue, op: Op, k: string, due: Option<int>)
    requires Inv(c, q) && Enabled(c, q, op) && Stands(q, k, due)
    requires op.ClearOp? || (op.RetryOp? && op.name != k)
    ensures Stands(Apply(c, q, op), k, due)
  {
  }

  lemma StandsStep(c: Config, q: Queue, op: Op, k: string, due: Option<int>)
    requires Inv(c, q) && Stands(q, k, due) && Enabled(c, q, op) && !Releases(op) && op != RetryOp(k)
    ensures Inv(c, Apply(c, q, op)) && Stands(Apply(c, q, op), k, due)
  {
    StepKeeps(c, q, op);
    assert FromOutside(op);
    if op.ClearOp? || op.RetryOp? {
      ClearStands(c, q, op, k, due);
    } else {
      ReportStands(c, q, op, k, due);
    }
  }

  lemma {:induction false} RunStands(c: Config, q: Queue, ops: seq<Op>, s: Queue, k: string, due: Option<int>)
    requires Inv(c, q) && Stands(q, k, due) && Execution(c, q, ops) && Uninterrupted(ops) && s == Final(c, q, ops)
    requires forall i :: 0 <= i < |ops| ==> ops[i] != RetryOp(k)
    ensures Inv(c, s) && Stands(s, k, due)
    decreases |ops|
  {
    if ops != [] {
      StandsStep(c, q, ops[0], k, due);
      assert forall i :: 0 <= i < |ops| - 1 ==> ops[1..][i] == ops[i + 1];
      RunStands(c, Apply(c, q, ops[0]), ops[1..], s, k, due);
    }
  }

  // When a failure of this kind lets the item go again by itself.
  function RetryTime(c: Config, r: Row, result: UploadResult, now: int): Option<int>
    requires c.backoff != []
  {
    if result.UserCanceled? then None else Some(now + Backoff(c, r.failCount + 1))
  }

  lemma FailureStands(c: Config, q: Queue, now: int)
    requires Inv(c, q) && Enabled(c, q, FailOp(now))
    ensures Inv(c, RecordFailure(c, q, now))
    ensures Stands(RecordFailure(c, q, now), CurrentRow(q).name, RetryTime(c, CurrentRow(q), q.phase.result, now))
  {
    StepKeeps(c, q, FailOp(now));
    FailedRowHolds(c, CurrentRow(q), q.phase.result, now);
  }

  // The item is due from this instant on, and without one never.
  ghost predicate DueFrom(r: Row, due: Option<int>) {
    forall later :: Candidate(r, later) <==> due.Some? && later >= due.value
  }

  lemma FailedDueFrom(r: Row)
    requires r.state.Failed?
    ensures DueFrom(r, r.nextAttempt)
  {
  }

  lemma SettlesStanding(c: Config, s: Queue, k: string, due: Option<int>)
    requires Inv(c, s) && Stands(s, k, due) && Enabled(c, s, FinishLastOp) && !CurrentRow(s).orphaned
    ensures var t := FinishLast(s);
            k in t.items && t.items[k].state.Failed? && DueFrom(t.items[k], due)
  {
    FailedDueFrom(FinishLast(s).items[k]);
  }

  // A failed send whose item is neither retried by hand nor orphaned before the
  // send has settled is due again from the end of its backoff on, or never if it
  // was canceled on the machine: whatever has been reported during the send.
  lemma RetriedIffNotCanceled(c: Config, q: Queue, now: int, q1: Queue, ops: seq<Op>, s: Queue)
    requires Inv(c, q) && Enabled(c, q, FailOp(now)) && q1 == Apply(c, q, FailOp(now))
    requires Execution(c, q1, ops) && Uninterrupted(ops) && s == Final(c, q1, ops)
    requires forall i :: 0 <= i < |ops| ==> ops[i] != RetryOp(CurrentRow(q).name)
    requires Enabled(c, s, FinishLastOp) && !CurrentRow(s).orphaned
    ensures var t := FinishLast(s);
            var k := CurrentRow(q).name;
            && k in t.items && t.items[k].state.Failed?
            && DueFrom(t.items[k], RetryTime(c, CurrentRow(q), q.phase.result, now))
  {
    var k, due := CurrentRow(q).name, RetryTime(c, CurrentRow(q), q.phase.result, now);
    FailureStands(c, q, now);
    RunStands(c, q1, ops, s, k, due);
    SettlesStanding(c, s, k, due);
  }
}
