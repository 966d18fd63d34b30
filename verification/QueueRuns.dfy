// Every run of the upload queue: watcher reports, manual sends, retries and
// folder switches interleaved at will with the goroutine's own sections.
module QueueRuns {
  import opened Bytes
  import opened UploadQueue

  datatype MoveResult = Moved | FileChanged | AttemptFailed

  datatype Op =
    | ReadyOp(root: string, dir: string, base: string, path: string, size: int, modTime: int)
    | RejectOp(root: string, dir: string, base: string, path: string, reason: string)
    | SendOp(root: string, dir: string, base: string, path: string, size: int, modTime: int)
    | ClearOp(keep: string, drops: seq<Event>)
    | RetryOp(name: string)
    | HoldOp(now: int, reason: string, holds: seq<Event>)
    | ChooseOp(now: int, name: string)
    | SnapshotOp
    | OpenFailsOp(err: OpenError, now: int)
    | OpenOp(size: int, modTime: int)
    | MarkOp
    | UploadOp(result: UploadResult)
    | FinishFirstOp
    | FailOp(now: int)
    | ResendSoonOp
    | ArchiveOp
    | CheckOp
    | MoveOp(moved: MoveResult)
    | GiveUpOp(message: string)
    | SettleOp
    | FinishLastOp

  const CHANGED_AFTER := "File sent, but it changed after being sent, so it was left in place"

  predicate BaseName(base: string) {
    base != "" && SEPARATOR !in base
  }

  // The callers' side of each operation: the watcher reports as ready only what
  // uploadTarget accepts and as rejected only what it refuses; SendFile checks
  // its target; the goroutine's sections follow one another.
  ghost predicate Enabled(c: Config, q: Queue, op: Op) {
    && c.backoff != []
    && match op
       case ReadyOp(_, dir, base, path, _, _) => BaseName(base) && c.accepts(dir, base) && path != ""
       case SendOp(_, dir, base, path, _, _) => BaseName(base) && c.accepts(dir, base) && path != ""
       case RejectOp(_, dir, base, _, _) => BaseName(base) && !c.accepts(dir, base)
       case ClearOp(keep, drops) => DropsOf(q, keep, drops)
       case RetryOp(_) => true
       case HoldOp(now, reason, holds) => q.phase.Idle? && HoldsOf(q, now, reason, holds)
       case ChooseOp(now, name) => q.phase.Idle? && First(q, now, name)
       case SnapshotOp => q.phase.Chosen? && HasCurrent(q)
       case OpenFailsOp(err, _) =>
         q.phase.Opening? && HasCurrent(q) && (err.BadTarget? <==> !c.accepts(q.phase.src.dir, q.phase.src.base))
       case OpenOp(_, _) => q.phase.Opening? && c.accepts(q.phase.src.dir, q.phase.src.base)
       case MarkOp => q.phase.Opened? && HasCurrent(q)
       case UploadOp(_) => q.phase.Uploading?
       case FinishFirstOp => q.phase.Uploaded? && HasCurrent(q)
       case FailOp(_) => q.phase.Settling? && !q.phase.result.Succeeded? && HasCurrent(q)
       case ResendSoonOp => q.phase.Settling? && q.phase.result.Succeeded? && q.phase.resend && HasCurrent(q)
       case ArchiveOp => q.phase.Settling? && q.phase.result.Succeeded? && !q.phase.resend
       case CheckOp => q.phase.Archiving? && HasCurrent(q)
       case MoveOp(_) => q.phase.Moving?
       case GiveUpOp(_) => q.phase.Archiving? || q.phase.Moving?
       case SettleOp => q.phase.Settled? && HasCurrent(q)
       case FinishLastOp => q.phase.Recorded? && HasCurrent(q)
  }

  ghost function Apply(c: Config, q: Queue, op: Op): Queue
    requires Enabled(c, q, op)
  {
    match op
    case ReadyOp(root, dir, base, path, size, modTime) => Ready(q, root, dir, base, path, size, modTime)
    case SendOp(root, dir, base, path, size, modTime) => SendFile(q, root, dir, base, path, size, modTime)
    case RejectOp(root, dir, base, path, reason) => Reject(q, root, dir, base, path, reason)
    case ClearOp(keep, drops) => ClearNonManual(q, keep, drops)
    case RetryOp(name) => Retry(q, name)
    case HoldOp(now, reason, holds) => Hold(q, now, reason, holds)
    case ChooseOp(_, name) => Choose(q, name)
    case SnapshotOp => Snapshot(q)
    case OpenFailsOp(err, now) => PreflightFailed(c, q, err, now)
    case OpenOp(size, modTime) => q.(phase := Opened(q.phase.src.(size := size, modTime := modTime)))
    case MarkOp => MarkSending(q)
    case UploadOp(result) => q.(phase := Uploaded(q.phase.src, result))
    case FinishFirstOp => FinishFirst(q)
    case FailOp(now) => RecordFailure(c, q, now)
    case ResendSoonOp => SetTerminal(q, Sent, FILE_SENT, true)
    case ArchiveOp => q.(phase := Archiving(q.phase.src))
    case CheckOp => ArchiveCheck(q)
    case MoveOp(moved) =>
      (match moved
       case Moved => q.(phase := Settled(Sent, FILE_SENT))
       case FileChanged => q.(phase := Settled(Sent, CHANGED_AFTER))
       case AttemptFailed => q.(phase := Archiving(q.phase.src)))
    case GiveUpOp(message) => q.(phase := Settled(SentUnfiled, message))
    case SettleOp => SetTerminal(q, q.phase.state, q.phase.message, false)
    case FinishLastOp => FinishLast(q)
  }

  // --- The invariant -----------------------------------------------------------

  ghost predicate RowOk(c: Config, k: string, r: Row) {
    && r.name == k && k == Join(r.dir, r.base) && BaseName(r.base)
    && (r.resendAfter ==> r.sending && c.accepts(r.dir, r.base))
    && (r.orphaned ==> !r.manual)
  }

  // Nothing that a report has changed shows as sent.
  predicate Settles(r: Row) {
    r.state.Sent? || r.state.SentUnfiled? ==> !r.changed
  }

  ghost predicate ItemsOk(c: Config, q: Queue) {
    forall k :: k in q.items ==>
      && RowOk(c, k, q.items[k])
      && (q.items[k].sending || q.items[k].orphaned || !Settles(q.items[k]) ==> q.cur == InMap(k))
  }

  predicate ResendDue(p: Phase) {
    match p
    case Settling(_, _, resend) => resend
    case Recorded(_, resend) => resend
    case _ => false
  }

  predicate SourceOf(p: Phase, r: Row) {
    match p
    case Opening(src) => src.dir == r.dir && src.base == r.base
    case _ => true
  }

  ghost predicate CurrentOk(c: Config, q: Queue, r: Row) {
    && SourceOf(q.phase, r)
    && if c.accepts(r.dir, r.base) then
         && r.sending
         && (q.cur.Detached? ==> r.orphaned)
         && (r.changed ==> r.resendAfter || ResendDue(q.phase))
         && (q.phase.Recorded? && !q.phase.ok ==> r.state.Failed? || r.state.Pending?)
       else q.phase.Chosen? || q.phase.Opening?
  }

  ghost predicate Inv(c: Config, q: Queue) {
    && ItemsOk(c, q)
    && (q.phase.Idle? <==> q.cur.Nothing?)
    && (q.phase.Settled? ==> q.phase.state.Sent? || q.phase.state.SentUnfiled?)
    && (q.cur.InMap? ==> q.cur.name in q.items)
    && (q.cur.Detached? ==> RowOk(c, q.cur.row.name, q.cur.row))
    && (HasCurrent(q) ==> CurrentOk(c, q, CurrentRow(q)))
  }

  lemma JoinInjective(d1: string, b1: string, d2: string, b2: string)
    requires BaseName(b1) && BaseName(b2) && Join(d1, b1) == Join(d2, b2)
    ensures d1 == d2 && b1 == b2
  {
    var p := Join(d1, b1);
    if d1 != "" { assert p[|d1|] == SEPARATOR; InBase(d1, b1); }
    if d2 != "" { assert p[|d2|] == SEPARATOR; InBase(d2, b2); }
    if d1 != "" && d2 != "" {
      assert d1 == p[..|d1|] && d2 == p[..|d2|] && b1 == p[|d1| + 1..] && b2 == p[|d2| + 1..];
    }
  }

  lemma InBase(d: string, b: string)
    requires d != ""
    ensures var p := Join(d, b); forall i :: |d| < i < |p| ==> p[i] in b
  {
    var p := Join(d, b);
    forall i | |d| < i < |p| ensures p[i] in b { assert p[i] == b[i - |d| - 1]; }
  }

  // --- Every operation keeps it ------------------------------------------------

  lemma LockKeeps(c: Config, q: Queue, root: string, dir: string, base: string)
    requires Inv(c, q) && BaseName(base)
    ensures Inv(c, ItemLocked(q, root, dir, base))
    ensures Located(c, q, ItemLocked(q, root, dir, base), dir, base)
  {
    var name := Join(dir, base);
    if name in q.items {
      JoinInjective(dir, base, q.items[name].dir, q.items[name].base);
    }
    if name in q.items && !q.items[name].orphaned {
      var r := q.items[name].(root := root, dir := dir, base := base);
      PutKeeps(c, q, name, r, q.log);
      assert ItemLocked(q, root, dir, base) == q.(items := q.items[name := r], log := q.log);
    }
  }

  // The item itemLocked returns.
  ghost predicate Located(c: Config, q: Queue, q1: Queue, dir: string, base: string) {
    var name := Join(dir, base);
    && q1.phase == q.phase && q1.log == q.log && name in q1.items
    && q1.items[name].dir == dir && q1.items[name].base == base
    && q1.items[name].name == name && !q1.items[name].orphaned
    && (c.accepts(dir, base) && q1.cur == InMap(name) ==> q1.items[name].sending)
  }

  // Putting back a row that is in order leaves the whole in order.
  lemma PutKeeps(c: Config, q: Queue, k: string, r: Row, log: seq<Event>)
    requires Inv(c, q) && k in q.items && RowOk(c, k, r)
    requires r.dir == q.items[k].dir && r.base == q.items[k].base
    requires q.cur == InMap(k) ==> CurrentOk(c, q, r)
    requires q.cur != InMap(k) ==> !r.sending && !r.orphaned && Settles(r)
    ensures Inv(c, q.(items := q.items[k := r], log := log))
  {
  }

  lemma ReadyKeeps(c: Config, q: Queue, op: Op)
    requires Inv(c, q) && Enabled(c, q, op) && op.ReadyOp?
    ensures Inv(c, Apply(c, q, op))
  {
    LockKeeps(c, q, op.root, op.dir, op.base);
    var q1 := ItemLocked(q, op.root, op.dir, op.base);
    var name := Join(op.dir, op.base);
    var t := Apply(c, q, op);
    if t != q1 { PutKeeps(c, q1, name, t.items[name], t.log); }
  }

  lemma SendKeeps(c: Config, q: Queue, op: Op)
    requires Inv(c, q) && Enabled(c, q, op) && op.SendOp?
    ensures Inv(c, Apply(c, q, op))
  {
    LockKeeps(c, q, op.root, op.dir, op.base);
    var q1 := ItemLocked(q, op.root, op.dir, op.base);
    var name := Join(op.dir, op.base);
    var t := Apply(c, q, op);
    PutKeeps(c, q1, name, t.items[name], t.log);
  }

  lemma RejectKeeps(c: Config, q: Queue, op: Op)
    requires Inv(c, q) && Enabled(c, q, op) && op.RejectOp?
    ensures Inv(c, Apply(c, q, op))
  {
    LockKeeps(c, q, op.root, op.dir, op.base);
    var q1 := ItemLocked(q, op.root, op.dir, op.base);
    var name := Join(op.dir, op.base);
    var t := Apply(c, q, op);
    PutKeeps(c, q1, name, t.items[name], t.log);
  }

  lemma RetryKeeps(c: Config, q: Queue, name: string)
    requires Inv(c, q) && c.backoff != []
    ensures Inv(c, Retry(q, name))
  {
    if name in q.items && q.items[name].state.Retryable() {
      var t := Retry(q, name);
      PutKeeps(c, q, name, t.items[name], t.log);
    }
  }

  lemma ClearKeeps(c: Config, q: Queue, keep: string, drops: seq<Event>)
    requires Inv(c, q)
    ensures Inv(c, ClearNonManual(q, keep, drops))
  {
  }

  lemma HoldKeeps(c: Config, q: Queue, now: int, reason: string, holds: seq<Event>)
    requires Inv(c, q) && q.phase.Idle?
    ensures Inv(c, Hold(q, now, reason, holds))
  {
  }

  lemma ChooseKeeps(c: Config, q: Queue, name: string)
    requires Inv(c, q) && q.phase.Idle? && name in q.items
    ensures Inv(c, Choose(q, name))
  {
  }

  // The same for the row the goroutine holds, and the phase it moves to.
  lemma SetCurrentKeeps(c: Config, q: Queue, r: Row, p: Phase, log: seq<Event>)
    requires Inv(c, q) && HasCurrent(q) && RowOk(c, CurrentRow(q).name, r)
    requires r.dir == CurrentRow(q).dir && r.base == CurrentRow(q).base
    requires r.manual == CurrentRow(q).manual && r.orphaned == CurrentRow(q).orphaned
    requires !p.Idle? && (p.Settled? ==> p.state.Sent? || p.state.SentUnfiled?)
    requires CurrentOk(c, q.(phase := p), r)
    ensures Inv(c, SetCurrent(q, r).(phase := p, log := log))
  {
  }

  // Letting go of a row that is idle again.
  lemma ReleaseKeeps(c: Config, q: Queue, r: Row, log: seq<Event>)
    requires Inv(c, q) && HasCurrent(q) && RowOk(c, CurrentRow(q).name, r)
    requires q.cur.InMap? ==> !r.sending && !r.orphaned && Settles(r)
    ensures Inv(c, Release(SetCurrent(q, r)).(log := log))
  {
  }

  lemma DropKeeps(c: Config, q: Queue, r: Row, message: string)
    requires Inv(c, q) && HasCurrent(q) && r.name == CurrentRow(q).name
    requires q.cur.Detached? ==> r.name !in q.items
    ensures Inv(c, Release(DropCurrent(SetCurrent(q, r), message)))
  {
  }

  lemma DropOrphanKeeps(c: Config, q: Queue, r: Row)
    requires Inv(c, q) && HasCurrent(q) && r.name == CurrentRow(q).name && r.orphaned
    ensures Inv(c, Release(DropOrphan(SetCurrent(q, r))))
  {
    if q.cur.InMap? {
      DropKeeps(c, q, r, FOLDER_CHANGED);
    }
  }

  lemma SettleAsKeeps(c: Config, q: Queue, r: Row)
    requires Inv(c, q) && HasCurrent(q) && RowOk(c, CurrentRow(q).name, r)
    requires !r.sending && !r.orphaned && Settles(r)
    ensures Inv(c, SettleAs(q, r))
  {
    ReleaseKeeps(c, q, r, q.log + [EventOf(r)]);
    assert SettleAs(q, r) == Release(SetCurrent(q, r)).(log := q.log + [EventOf(r)]);
  }

  lemma OpenFailsKeeps(c: Config, q: Queue, err: OpenError, now: int)
    requires Inv(c, q) && Enabled(c, q, OpenFailsOp(err, now))
    ensures Inv(c, PreflightFailed(c, q, err, now))
  {
    var it := CurrentRow(q);
    var it1 := it.(sending := false, resendAfter := false);
    if it1.orphaned {
      DropOrphanKeeps(c, q, it1);
    } else if err.BadTarget? {
      SettleAsKeeps(c, q, it1.(state := Rejected, message := err.reason, nextAttempt := None));
    } else if err.NotExist? && !it.resendAfter {
      DropKeeps(c, q, it1, VanishedMessage(it1));
    } else {
      SettleAsKeeps(c, q, it1.(state := Pending, message := WAITING_TO_SEND, nextAttempt := Some(now + c.backoff[0])));
    }
  }

  lemma SendingKeeps(c: Config, q: Queue, op: Op)
    requires Inv(c, q) && Enabled(c, q, op) && (op.SnapshotOp? || op.MarkOp? || op.FinishFirstOp?)
    ensures Inv(c, Apply(c, q, op))
  {
    var t := Apply(c, q, op);
    SetCurrentKeeps(c, q, CurrentRow(t), t.phase, t.log);
  }

  // Nothing of the row but its state, its message and its schedule.
  predicate SameHolding(a: Row, b: Row) {
    b == a.(state := b.state, message := b.message, failCount := b.failCount, nextAttempt := b.nextAttempt)
  }

  lemma FailedRowHolds(c: Config, r: Row, result: UploadResult, now: int)
    requires c.backoff != [] && !result.Succeeded?
    ensures SameHolding(r, FailedRow(c, r, result, now)) && FailedRow(c, r, result, now).state.Failed?
  {
  }

  lemma FailKeeps(c: Config, q: Queue, now: int)
    requires Inv(c, q) && Enabled(c, q, FailOp(now))
    ensures Inv(c, RecordFailure(c, q, now))
  {
    var r := FailedRow(c, CurrentRow(q), q.phase.result, now);
    FailedRowHolds(c, CurrentRow(q), q.phase.result, now);
    FailWithKeeps(c, q, r);
  }

  lemma FailWithKeeps(c: Config, q: Queue, r: Row)
    requires Inv(c, q) && HasCurrent(q) && q.phase.Settling?
    requires SameHolding(CurrentRow(q), r) && r.state.Failed?
    ensures Inv(c, EmitUnless(SetCurrent(q, r), Superseded(q), r).(phase := Recorded(false, q.phase.resend)))
  {
    var t := EmitUnless(SetCurrent(q, r), Superseded(q), r);
    SetCurrentKeeps(c, q, r, Recorded(false, q.phase.resend), t.log);
  }

  lemma TerminalKeeps(c: Config, q: Queue, state: TransferState, message: string, resend: bool)
    requires Inv(c, q) && HasCurrent(q) && (q.phase.Settled? || q.phase.Settling?) && ResendDue(q.phase) == resend
    ensures Inv(c, SetTerminal(q, state, message, resend))
  {
    var t := SetTerminal(q, state, message, resend);
    SetCurrentKeeps(c, q, CurrentRow(t), t.phase, t.log);
  }

  lemma FinishLastKeeps(c: Config, q: Queue)
    requires Inv(c, q) && Enabled(c, q, FinishLastOp)
    ensures Inv(c, FinishLast(q))
  {
    var it := CurrentRow(q);
    var it1 := it.(resendAfter := false, sending := false);
    if it1.orphaned {
      DropOrphanKeeps(c, q, it1);
    } else if (q.phase.resendDue || it.resendAfter) && q.phase.ok {
      SettleAsKeeps(c, q, Rearm(it1));
    } else {
      ReleaseKeeps(c, q, it1, q.log);
    }
  }

  // Operations that only move the goroutine on.
  lemma PhaseKeeps(c: Config, q: Queue, op: Op)
    requires Inv(c, q) && Enabled(c, q, op)
    requires op.OpenOp? || op.UploadOp? || op.ArchiveOp? || op.CheckOp? || op.MoveOp? || op.GiveUpOp?
    ensures Inv(c, Apply(c, q, op))
  {
    var t := Apply(c, q, op);
    assert t == q.(phase := t.phase);
  }

  predicate FromOutside(op: Op) {
    op.ReadyOp? || op.SendOp? || op.RejectOp? || op.ClearOp? || op.RetryOp?
  }

  lemma OutsideKeeps(c: Config, q: Queue, op: Op)
    requires Inv(c, q) && Enabled(c, q, op) && FromOutside(op)
    ensures Inv(c, Apply(c, q, op))
  {
    match op
    case ReadyOp(_, _, _, _, _, _) => ReadyKeeps(c, q, op);
    case SendOp(_, _, _, _, _, _) => SendKeeps(c, q, op);
    case RejectOp(_, _, _, _, _) => RejectKeeps(c, q, op);
    case ClearOp(keep, drops) => ClearKeeps(c, q, keep, drops);
    case RetryOp(name) => RetryKeeps(c, q, name);
  }

  lemma RunnerKeeps(c: Config, q: Queue, op: Op)
    requires Inv(c, q) && Enabled(c, q, op) && !FromOutside(op)
    ensures Inv(c, Apply(c, q, op))
  {
    match op
    case HoldOp(now, reason, holds) => HoldKeeps(c, q, now, reason, holds);
    case ChooseOp(_, name) => ChooseKeeps(c, q, name);
    case OpenFailsOp(err, now) => OpenFailsKeeps(c, q, err, now);
    case SnapshotOp => SendingKeeps(c, q, op);
    case MarkOp => SendingKeeps(c, q, op);
    case FinishFirstOp => SendingKeeps(c, q, op);
    case FailOp(now) => FailKeeps(c, q, now);
    case ResendSoonOp => TerminalKeeps(c, q, Sent, FILE_SENT, true);
    case SettleOp => TerminalKeeps(c, q, q.phase.state, q.phase.message, false);
    case FinishLastOp => FinishLastKeeps(c, q);
    case _ => PhaseKeeps(c, q, op);
  }

  lemma StepKeeps(c: Config, q: Queue, op: Op)
    requires Inv(c, q) && Enabled(c, q, op)
    ensures Inv(c, Apply(c, q, op))
  {
    if FromOutside(op) { OutsideKeeps(c, q, op); } else { RunnerKeeps(c, q, op); }
  }
}
