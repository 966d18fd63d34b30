// What the user is shown: the latest event about a name tells what its item is
// (internal/engine/scheduler.go, every section that reports).
module QueueEvents {
  import opened Bytes
  import opened UploadQueue
  import opened QueueRuns
  import opened QueueTheorems
  import opened QueueSwitch

  function LastEvent(log: seq<Event>, k: string): Option<Event> {
    if log == [] then None
    else if log[|log| - 1].name == k then Some(log[|log| - 1])
    else LastEvent(log[..|log| - 1], k)
  }

  lemma OneMore(log: seq<Event>, e: Event, k: string)
    ensures LastEvent(log + [e], k) == if e.name == k then Some(e) else LastEvent(log, k)
  {
    assert (log + [e])[..|log|] == log;
  }

  lemma {:induction false} ManyMore(log: seq<Event>, more: seq<Event>, k: string)
    ensures var about := EventsNamed(more, k);
            LastEvent(log + more, k) == if about == [] then LastEvent(log, k) else Some(about[|about| - 1])
    decreases |more|
  {
    if more == [] {
      assert log + more == log;
    } else {
      var init, e := more[..|more| - 1], more[|more| - 1];
      ManyMore(log, init, k);
      assert log + more == (log + init) + [e];
      OneMore(log + init, e, k);
    }
  }

  // The latest event about k is that of its item; a name without an item was
  // never reported, or was last reported as sent or dropped.
  ghost predicate Shown(q: Queue, k: string) {
    if k in q.items then LastEvent(q.log, k) == Some(EventOf(q.items[k]))
    else
      var e := LastEvent(q.log, k);
      e == None || e.value.state == Sent || e.value.state == Dropped
  }

  // The item of k looks the same from outside.
  predicate SameLook(q: Queue, t: Queue, k: string) {
    (k in t.items <==> k in q.items) && (k in q.items ==> EventOf(t.items[k]) == EventOf(q.items[k]))
  }

  lemma QuietShown(q: Queue, t: Queue, k: string)
    requires Shown(q, k) && SameLook(q, t, k) && t.log == q.log
    ensures Shown(t, k)
  {
  }

  lemma OtherShown(q: Queue, t: Queue, e: Event, k: string)
    requires Shown(q, k) && SameLook(q, t, k) && t.log == q.log + [e] && e.name != k
    ensures Shown(t, k)
  {
    OneMore(q.log, e, k);
  }

  lemma ReportedShown(q: Queue, t: Queue, k: string)
    requires k in t.items && t.items[k].name == k && t.log == q.log + [EventOf(t.items[k])]
    ensures Shown(t, k)
  {
    OneMore(q.log, EventOf(t.items[k]), k);
  }

  // --- Reports, requests and switches ------------------------------------------------

  lemma ReadyShown(c: Config, q: Queue, op: Op, k: string)
    requires Inv(c, q) && Enabled(c, q, op) && op.ReadyOp? && Shown(q, k)
    ensures Shown(Apply(c, q, op), k)
  {
    var t, n := Apply(c, q, op), Join(op.dir, op.base);
    if t.log == q.log {
      QuietShown(q, t, k);
    } else if n == k {
      ReportedShown(q, t, k);
    } else {
      OtherShown(q, t, EventOf(t.items[n]), k);
    }
  }

  lemma SendShown(c: Config, q: Queue, op: Op, k: string)
    requires Inv(c, q) && Enabled(c, q, op) && op.SendOp? && Shown(q, k)
    ensures Shown(Apply(c, q, op), k)
  {
    var t, n := Apply(c, q, op), Join(op.dir, op.base);
    if n == k { ReportedShown(q, t, k); } else { OtherShown(q, t, EventOf(t.items[n]), k); }
  }

  lemma RejectShown(c: Config, q: Queue, op: Op, k: string)
    requires Inv(c, q) && Enabled(c, q, op) && op.RejectOp? && Shown(q, k)
    ensures Shown(Apply(c, q, op), k)
  {
    var t, n := Apply(c, q, op), Join(op.dir, op.base);
    if n == k { ReportedShown(q, t, k); } else { OtherShown(q, t, EventOf(t.items[n]), k); }
  }

  lemma RetryShown(c: Config, q: Queue, name: string, k: string)
    requires Inv(c, q) && Shown(q, k)
    ensures Shown(Retry(q, name), k)
  {
    var t := Retry(q, name);
    if t != q {
      if name == k { ReportedShown(q, t, k); } else { OtherShown(q, t, EventOf(t.items[name]), k); }
    }
  }

  lemma ClearShown(c: Config, q: Queue, op: Op, k: string)
    requires Inv(c, q) && Enabled(c, q, op) && op.ClearOp? && Shown(q, k)
    ensures Shown(Apply(c, q, op), k)
  {
    SwitchExact(q, op.keep, op.drops, k);
    SwitchReports(c, q, op.keep, op.drops, k);
    ManyMore(q.log, op.drops, k);
  }

  lemma HoldShown(c: Config, q: Queue, op: Op, k: string)
    requires Inv(c, q) && Enabled(c, q, op) && op.HoldOp? && Shown(q, k)
    ensures Shown(Apply(c, q, op), k)
  {
    ManyMore(q.log, op.holds, k);
  }

  // --- The goroutine's sections --------------------------------------------------------

  // The item the goroutine holds has become r, which is reported or looks the
  // same; it is the one in the map, or r is another's.
  lemma PutShown(c: Config, q: Queue, r: Row, t: Queue, k: string)
    requires Inv(c, q) && HasCurrent(q) && Shown(q, k) && r.name == CurrentRow(q).name
    requires q.cur.InMap? || r.name != k
    requires t.items == SetCurrent(q, r).items
    requires t.log == q.log + [EventOf(r)] || (t.log == q.log && EventOf(r) == EventOf(CurrentRow(q)))
    ensures Shown(t, k)
  {
    if t.log == q.log {
      QuietShown(q, t, k);
    } else if r.name == k {
      ReportedShown(q, t, k);
    } else {
      OtherShown(q, t, EventOf(r), k);
    }
  }

  // It has been dropped.
  lemma DropShown(c: Config, q: Queue, r: Row, message: string, k: string)
    requires Inv(c, q) && q.cur.InMap? && HasCurrent(q) && Shown(q, k)
    requires EventOf(r) == EventOf(CurrentRow(q))
    ensures Shown(DropCurrent(SetCurrent(q, r), message), k)
  {
    var t := DropCurrent(SetCurrent(q, r), message);
    if t.log == q.log {
      if r.name != k { QuietShown(q, t, k); }
    } else {
      OneMore(q.log, EventOf(DroppedRow(r, message)), k);
    }
  }

  // The goroutine's item is in the map, unless it is superseded or of a name that
  // is refused.
  lemma InMapUnless(c: Config, q: Queue, dir: string, base: string)
    requires Inv(c, q) && HasCurrent(q) && BaseName(base) && c.accepts(dir, base) && !Superseded(q)
    ensures q.cur.InMap? || CurrentRow(q).name != Join(dir, base)
  {
    if q.cur.Detached? && CurrentRow(q).name == Join(dir, base) {
      JoinInjective(dir, base, CurrentRow(q).dir, CurrentRow(q).base);
    }
  }

  lemma OpenFailsShown(c: Config, q: Queue, err: OpenError, now: int, k: string)
    requires Inv(c, q) && Enabled(c, q, OpenFailsOp(err, now)) && Shown(q, k)
    requires q.cur.InMap? || (CurrentRow(q).name != k && !CurrentRow(q).orphaned && err.BadTarget?)
    ensures Shown(PreflightFailed(c, q, err, now), k)
  {
    var it := CurrentRow(q);
    var it1 := it.(sending := false, resendAfter := false);
    var t := PreflightFailed(c, q, err, now);
    if it1.orphaned {
      DropShown(c, q, it1, FOLDER_CHANGED, k);
    } else if err.BadTarget? {
      PutShown(c, q, it1.(state := Rejected, message := err.reason, nextAttempt := None), t, k);
    } else if err.NotExist? && !it.resendAfter {
      DropShown(c, q, it1, VanishedMessage(it1), k);
    } else {
      PutShown(c, q, it1.(state := Pending, message := WAITING_TO_SEND, nextAttempt := Some(now + c.backoff[0])), t, k);
    }
  }

  lemma FinishLastShown(c: Config, q: Queue, k: string)
    requires Inv(c, q) && Enabled(c, q, FinishLastOp) && Shown(q, k) && q.cur.InMap?
    ensures Shown(FinishLast(q), k)
  {
    var it := CurrentRow(q);
    var it1 := it.(resendAfter := false, sending := false);
    var t := FinishLast(q);
    if it1.orphaned {
      DropShown(c, q, it1, FOLDER_CHANGED, k);
    } else if (q.phase.resendDue || it.resendAfter) && q.phase.ok {
      PutShown(c, q, Rearm(it1), t, k);
    } else {
      PutShown(c, q, it1, t, k);
    }
  }

  lemma TerminalShown(c: Config, q: Queue, state: TransferState, message: string, resend: bool, k: string)
    requires Inv(c, q) && q.cur.InMap? && HasCurrent(q) && Shown(q, k)
    ensures Shown(SetTerminal(q, state, message, resend), k)
  {
    PutShown(c, q, CurrentRow(q).(state := state, message := message), SetTerminal(q, state, message, resend), k);
  }

  lemma FailShown(c: Config, q: Queue, now: int, k: string)
    requires Inv(c, q) && Enabled(c, q, FailOp(now)) && q.cur.InMap? && Shown(q, k)
    ensures Shown(RecordFailure(c, q, now), k)
  {
    FailedRowHolds(c, CurrentRow(q), q.phase.result, now);
    PutShown(c, q, FailedRow(c, CurrentRow(q), q.phase.result, now), RecordFailure(c, q, now), k);
  }

  lemma InMapShown(c: Config, q: Queue, op: Op, k: string)
    requires Inv(c, q) && Enabled(c, q, op) && !FromOutside(op) && !op.HoldOp? && !op.ChooseOp?
    requires q.cur.InMap? && Shown(q, k)
    ensures Shown(Apply(c, q, op), k)
  {
    var t := Apply(c, q, op);
    match op
    case OpenFailsOp(err, now) => OpenFailsShown(c, q, err, now, k);
    case FailOp(now) => FailShown(c, q, now, k);
    case MarkOp => PutShown(c, q, CurrentRow(t), t, k);
    case FinishFirstOp => PutShown(c, q, CurrentRow(t), t, k);
    case ResendSoonOp => TerminalShown(c, q, Sent, FILE_SENT, true, k);
    case SettleOp => TerminalShown(c, q, q.phase.state, q.phase.message, false, k);
    case FinishLastOp => FinishLastShown(c, q, k);
    case _ => QuietShown(q, t, k);
  }

  // The event that an upload has begun, of an orphan whose name another item has
  // taken.
  predicate Misleads(q: Queue, op: Op, k: string) {
    op.MarkOp? && Superseded(q) && q.cur.row.name == k
  }

  lemma SupersededShown(c: Config, q: Queue, op: Op, k: string)
    requires Inv(c, q) && Enabled(c, q, op) && !FromOutside(op) && Superseded(q) && !Misleads(q, op, k) && Shown(q, k)
    ensures Shown(Apply(c, q, op), k)
  {
    SupersededIsSilent(c, q, op);
    var t := Apply(c, q, op);
    if op.MarkOp? {
      OtherShown(q, t, EventOf(CurrentRow(t)), k);
    } else {
      QuietShown(q, t, k);
    }
  }

  // A name that is refused: the goroutine finds out when it opens the file.
  lemma RefusedShown(c: Config, q: Queue, op: Op, k: string)
    requires Inv(c, q) && Enabled(c, q, op) && !FromOutside(op) && Shown(q, k)
    requires q.cur.Detached? && !q.cur.row.orphaned && q.cur.row.name != k
    ensures Shown(Apply(c, q, op), k)
  {
    if op.OpenFailsOp? {
      OpenFailsShown(c, q, op.err, op.now, k);
    } else {
      assert op.SnapshotOp?;
    }
  }

  lemma StepShown(c: Config, q: Queue, op: Op, dir: string, base: string)
    requires Inv(c, q) && Enabled(c, q, op) && BaseName(base) && c.accepts(dir, base) && Shown(q, Join(dir, base))
    requires !Misleads(q, op, Join(dir, base))
    ensures Shown(Apply(c, q, op), Join(dir, base))
  {
    var k := Join(dir, base);
    if FromOutside(op) {
      OutsideShown(c, q, op, k);
    } else if op.HoldOp? {
      HoldShown(c, q, op, k);
    } else if op.ChooseOp? {
      QuietShown(q, Choose(q, op.name), k);
    } else {
      RunnerShown(c, q, op, dir, base);
    }
  }

  lemma OutsideShown(c: Config, q: Queue, op: Op, k: string)
    requires Inv(c, q) && Enabled(c, q, op) && FromOutside(op) && Shown(q, k)
    ensures Shown(Apply(c, q, op), k)
  {
    match op
    case ReadyOp(_, _, _, _, _, _) => ReadyShown(c, q, op, k);
    case SendOp(_, _, _, _, _, _) => SendShown(c, q, op, k);
    case RejectOp(_, _, _, _, _) => RejectShown(c, q, op, k);
    case RetryOp(name) => RetryShown(c, q, name, k);
    case ClearOp(_, _) => ClearShown(c, q, op, k);
  }

  lemma RunnerShown(c: Config, q: Queue, op: Op, dir: string, base: string)
    requires Inv(c, q) && Enabled(c, q, op) && BaseName(base) && c.accepts(dir, base) && Shown(q, Join(dir, base))
    requires !FromOutside(op) && !op.HoldOp? && !op.ChooseOp? && !Misleads(q, op, Join(dir, base))
    ensures Shown(Apply(c, q, op), Join(dir, base))
  {
    if q.cur.InMap? {
      InMapShown(c, q, op, Join(dir, base));
    } else if Superseded(q) {
      SupersededShown(c, q, op, Join(dir, base));
    } else {
      InMapUnless(c, q, dir, base);
      RefusedShown(c, q, op, Join(dir, base));
    }
  }

  // No upload of a superseded orphan of k has begun.
  ghost predicate NeverMisled(c: Config, q: Queue, ops: seq<Op>, k: string)
    requires Execution(c, q, ops)
    decreases |ops|
  {
    ops == [] || (!Misleads(q, ops[0], k) && NeverMisled(c, Apply(c, q, ops[0]), ops[1..], k))
  }

  lemma {:induction false} RunShown(c: Config, q: Queue, ops: seq<Op>, dir: string, base: string)
    requires Inv(c, q) && Execution(c, q, ops) && BaseName(base) && c.accepts(dir, base)
    requires Shown(q, Join(dir, base)) && NeverMisled(c, q, ops, Join(dir, base))
    ensures Shown(Final(c, q, ops), Join(dir, base))
    decreases |ops|
  {
    if ops != [] {
      StepKeeps(c, q, ops[0]);
      StepShown(c, q, ops[0], dir, base);
      RunShown(c, Apply(c, q, ops[0]), ops[1..], dir, base);
    }
  }

  // In every run the latest event about a name the controller accepts is the
  // state of its item, and a name whose item is gone was last shown as sent or
  // dropped; unless the upload of an orphan has begun under the same name.
  lemma LatestEventIsTrue(c: Config, ops: seq<Op>, dir: string, base: string)
    requires Execution(c, EMPTY, ops) && BaseName(base) && c.accepts(dir, base)
    requires NeverMisled(c, EMPTY, ops, Join(dir, base))
    ensures Shown(Final(c, EMPTY, ops), Join(dir, base))
  {
    RunShown(c, EMPTY, ops, dir, base);
  }

  // In that case it does mislead: the item waiting is shown as being sent.
  lemma OrphanMisleads(c: Config, q: Queue, k: string)
    requires Inv(c, q) && Enabled(c, q, MarkOp) && Misleads(q, MarkOp, k)
    ensures var t := Apply(c, q, MarkOp);
            && LastEvent(t.log, k) != None && LastEvent(t.log, k).value.state == Sending
            && (k in q.items && q.items[k].state != Sending ==> !Shown(t, k)) && (k !in q.items ==> !Shown(t, k))
  {
    var t := Apply(c, q, MarkOp);
    OneMore(q.log, EventOf(CurrentRow(t)), k);
  }

  // --- The state shown while a send lasts ---------------------------------------------

  predicate InFlight(p: Phase) {
    p.Uploading? || p.Uploaded? || p.Settling? || p.Archiving? || p.Moving? || p.Settled?
  }

  // From the start of its upload to the record of its outcome the item shows as
  // being sent; once a failure is recorded it shows as failed, or as pending if
  // it has been retried since; once a success is, as sent, unless it has been retried.
  ghost predicate ShowsStage(q: Queue) {
    HasCurrent(q) ==>
      var r := CurrentRow(q);
      && (InFlight(q.phase) ==> r.state == Sending)
      && (q.phase.Recorded? && q.phase.ok ==> r.state == Sent || r.state == SentUnfiled || r.state == Pending)
      && (q.phase.Recorded? && !q.phase.ok ==> r.state == Failed || r.state == Pending)
  }

  // The goroutine keeps its item, in the state it was or, retried, pending again.
  ghost predicate SameStage(q: Queue, t: Queue) {
    && t.phase == q.phase
    && (HasCurrent(t) ==>
          && HasCurrent(q)
          && (CurrentRow(t).state == CurrentRow(q).state
              || (CurrentRow(q).state.Retryable() && CurrentRow(t).state == Pending)))
  }

  lemma ReadySameStage(c: Config, q: Queue, op: Op)
    requires Inv(c, q) && Enabled(c, q, op) && op.ReadyOp? && !q.phase.Chosen? && !q.phase.Opening?
    ensures SameStage(q, Apply(c, q, op))
  {
  }

  lemma SendSameStage(c: Config, q: Queue, op: Op)
    requires Inv(c, q) && Enabled(c, q, op) && op.SendOp? && !q.phase.Chosen? && !q.phase.Opening?
    ensures SameStage(q, Apply(c, q, op))
  {
  }

  lemma OutsideSameStage(c: Config, q: Queue, op: Op)
    requires Inv(c, q) && Enabled(c, q, op) && FromOutside(op) && !q.phase.Chosen? && !q.phase.Opening?
    ensures SameStage(q, Apply(c, q, op))
  {
    if op.ReadyOp? {
      ReadySameStage(c, q, op);
    } else if op.SendOp? {
      SendSameStage(c, q, op);
    } else if op.RejectOp? && HasCurrent(q) && CurrentRow(q).name == Join(op.dir, op.base) {
      JoinInjective(op.dir, op.base, CurrentRow(q).dir, CurrentRow(q).base);
    }
  }

  lemma OutsideStage(c: Config, q: Queue, op: Op)
    requires Inv(c, q) && Enabled(c, q, op) && FromOutside(op) && ShowsStage(q)
    ensures ShowsStage(Apply(c, q, op))
  {
    if q.phase.Chosen? || q.phase.Opening? {
      KeepsPhase(c, q, op);
    } else {
      OutsideSameStage(c, q, op);
    }
  }

  lemma KeepsPhase(c: Config, q: Queue, op: Op)
    requires Enabled(c, q, op) && FromOutside(op)
    ensures Apply(c, q, op).phase == q.phase
  {
  }

  // The goroutine's item is r, at a place where it may show so.
  lemma PutStage(q: Queue, r: Row, t: Queue)
    requires HasCurrent(q) && CurrentRow(SetCurrent(q, r)) == r
    requires t.items == SetCurrent(q, r).items && t.cur == SetCurrent(q, r).cur
    requires InFlight(t.phase) ==> r.state == Sending
    requires t.phase.Recorded? ==> if t.phase.ok then r.state == Sent || r.state == SentUnfiled else r.state == Failed
    ensures ShowsStage(t)
  {
  }

  lemma FailStage(c: Config, q: Queue, now: int)
    requires HasCurrent(q) && q.phase.Settling? && !q.phase.result.Succeeded? && c.backoff != []
    ensures ShowsStage(RecordFailure(c, q, now))
  {
    FailedRowHolds(c, CurrentRow(q), q.phase.result, now);
    PutStage(q, FailedRow(c, CurrentRow(q), q.phase.result, now), RecordFailure(c, q, now));
  }

  lemma TerminalStage(q: Queue, state: TransferState, message: string, resend: bool)
    requires HasCurrent(q) && (state == Sent || state == SentUnfiled)
    ensures ShowsStage(SetTerminal(q, state, message, resend))
  {
    PutStage(q, CurrentRow(q).(state := state, message := message), SetTerminal(q, state, message, resend));
  }

  lemma OpenFailsEnds(c: Config, q: Queue, err: OpenError, now: int)
    requires HasCurrent(q) && c.backoff != []
    ensures PreflightFailed(c, q, err, now).cur == Nothing
  {
  }

  lemma FinishLastEnds(q: Queue)
    requires HasCurrent(q) && q.phase.Recorded?
    ensures FinishLast(q).cur == Nothing
  {
  }

  lemma SectionStage(c: Config, q: Queue, op: Op)
    requires Inv(c, q) && Enabled(c, q, op) && !FromOutside(op) && ShowsStage(q)
    ensures ShowsStage(Apply(c, q, op))
  {
    var t := Apply(c, q, op);
    match op
    case OpenFailsOp(err, now) => OpenFailsEnds(c, q, err, now);
    case FinishLastOp => FinishLastEnds(q);
    case FailOp(now) => FailStage(c, q, now);
    case MarkOp => PutStage(q, CurrentRow(q).(size := q.phase.src.size, state := Sending, message := SENDING), t);
    case FinishFirstOp => PutStage(q, CurrentRow(q).(resendAfter := false), t);
    case ResendSoonOp => TerminalStage(q, Sent, FILE_SENT, true);
    case SettleOp => TerminalStage(q, q.phase.state, q.phase.message, false);
    case _ =>
  }

  lemma {:induction false} RunShowsStage(c: Config, q: Queue, ops: seq<Op>)
    requires Inv(c, q) && Execution(c, q, ops) && ShowsStage(q)
    ensures ShowsStage(Final(c, q, ops))
    decreases |ops|
  {
    if ops != [] {
      StepKeeps(c, q, ops[0]);
      if FromOutside(ops[0]) { OutsideStage(c, q, ops[0]); } else { SectionStage(c, q, ops[0]); }
      RunShowsStage(c, Apply(c, q, ops[0]), ops[1..]);
    }
  }
}
