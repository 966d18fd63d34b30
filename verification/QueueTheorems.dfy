// What the upload queue guarantees over every run.
module QueueTheorems {
  import opened Bytes
  import opened UploadQueue
  import opened QueueRuns

  ghost predicate Execution(c: Config, q: Queue, ops: seq<Op>)
    decreases |ops|
  {
    ops == [] || (Enabled(c, q, ops[0]) && Execution(c, Apply(c, q, ops[0]), ops[1..]))
  }

  ghost function Final(c: Config, q: Queue, ops: seq<Op>): Queue
    requires Execution(c, q, ops)
    decreases |ops|
  {
    if ops == [] then q else Final(c, Apply(c, q, ops[0]), ops[1..])
  }

  const EMPTY := Queue(map[], Nothing, Idle, [])

  lemma {:induction false} RunKeeps(c: Config, q: Queue, ops: seq<Op>)
    requires Inv(c, q) && Execution(c, q, ops)
    ensures Inv(c, Final(c, q, ops))
    decreases |ops|
  {
    if ops != [] {
      StepKeeps(c, q, ops[0]);
      RunKeeps(c, Apply(c, q, ops[0]), ops[1..]);
    }
  }

  // --- The shape of every reachable queue --------------------------------------

  // At most one item is sending, and it is the one the goroutine holds; a
  // pending resend belongs to it; items are filed under their own names; an
  // orphan is in the map only while its send lasts; an item in flight that is
  // no orphan is the one in the map.
  lemma ReachableShape(c: Config, ops: seq<Op>)
    requires Execution(c, EMPTY, ops)
    ensures var q := Final(c, EMPTY, ops);
            && (forall k :: k in q.items ==> q.items[k].name == k)
            && (forall k :: k in q.items && q.items[k].sending ==> q.cur == InMap(k))
            && (forall k :: k in q.items && q.items[k].resendAfter ==> q.items[k].sending)
            && (forall k :: k in q.items && q.items[k].orphaned ==> q.cur == InMap(k) && !q.phase.Idle?)
            && (q.phase.Idle? ==> forall k :: k in q.items ==> !q.items[k].sending)
            && (HasCurrent(q) && c.accepts(CurrentRow(q).dir, CurrentRow(q).base) ==>
                  CurrentRow(q).sending && (!CurrentRow(q).orphaned ==> q.cur.InMap?))
  {
    RunKeeps(c, EMPTY, ops);
  }

  // --- No lost update ------------------------------------------------------------

  // The name is free, or its item still owes a send to a change reported.
  predicate Owed(q: Queue, k: string) {
    k !in q.items || q.items[k].changed
  }

  // Op i of the run lets the goroutine pick up k.
  predicate Picks(op: Op, k: string) {
    op.ChooseOp? && op.name == k
  }

  lemma OwedStep(c: Config, q: Queue, op: Op, dir: string, base: string)
    requires Inv(c, q) && Enabled(c, q, op)
    requires BaseName(base) && c.accepts(dir, base) && Owed(q, Join(dir, base)) && !Picks(op, Join(dir, base))
    ensures Owed(Apply(c, q, op), Join(dir, base))
  {
    if FromOutside(op) {
      OwedOutside(c, q, op, dir, base);
    } else {
      OwedRunner(c, q, op, Join(dir, base));
    }
  }

  lemma OwedOutside(c: Config, q: Queue, op: Op, dir: string, base: string)
    requires Inv(c, q) && Enabled(c, q, op) && FromOutside(op)
    requires BaseName(base) && c.accepts(dir, base) && Owed(q, Join(dir, base))
    ensures Owed(Apply(c, q, op), Join(dir, base))
  {
    match op
    case ReadyOp(_, _, _, _, _, _) => OwedReady(c, q, op, Join(dir, base));
    case SendOp(_, _, _, _, _, _) => OwedSend(c, q, op, Join(dir, base));
    case RejectOp(_, d, b, _, _) =>
      if Join(d, b) == Join(dir, base) { JoinInjective(dir, base, d, b); }
    case ClearOp(_, _) =>
    case RetryOp(_) =>
  }

  lemma OwedReady(c: Config, q: Queue, op: Op, k: string)
    requires Inv(c, q) && Enabled(c, q, op) && op.ReadyOp? && Owed(q, k)
    ensures Owed(Apply(c, q, op), k)
  {
  }

  lemma OwedSend(c: Config, q: Queue, op: Op, k: string)
    requires Inv(c, q) && Enabled(c, q, op) && op.SendOp? && Owed(q, k)
    ensures Owed(Apply(c, q, op), k)
  {
  }

  lemma OwedRunner(c: Config, q: Queue, op: Op, k: string)
    requires Inv(c, q) && Enabled(c, q, op) && !FromOutside(op) && Owed(q, k) && !Picks(op, k)
    ensures Owed(Apply(c, q, op), k)
  {
    if HasCurrent(q) {
      RunnerKeepsChanged(c, q, op);
    }
  }

  // No item added, none with a new history.
  ghost predicate KeepsChanged(q: Queue, t: Queue) {
    forall k :: k in t.items ==> k in q.items && t.items[k].changed == q.items[k].changed
  }

  // The goroutine's sections add no item, and touch only the one it holds,
  // whose history they leave alone.
  lemma RunnerKeepsChanged(c: Config, q: Queue, op: Op)
    requires Inv(c, q) && Enabled(c, q, op) && !FromOutside(op) && HasCurrent(q)
    ensures KeepsChanged(q, Apply(c, q, op))
  {
    if op.OpenFailsOp? {
      OpenFailsKeepsChanged(c, q, op.err, op.now);
    } else if op.FinishLastOp? {
      FinishLastKeepsChanged(q);
    } else {
      SectionKeepsChanged(c, q, op);
    }
  }

  lemma SectionKeepsChanged(c: Config, q: Queue, op: Op)
    requires Inv(c, q) && Enabled(c, q, op) && !FromOutside(op) && HasCurrent(q)
    requires !op.OpenFailsOp? && !op.FinishLastOp?
    ensures KeepsChanged(q, Apply(c, q, op))
  {
    if op.FailOp? {
      FailedRowHolds(c, CurrentRow(q), q.phase.result, op.now);
      PutKeepsChanged(q, FailedRow(c, CurrentRow(q), q.phase.result, op.now));
    } else if op.MarkOp? {
      PutKeepsChanged(q, CurrentRow(MarkSending(q)));
    } else if op.FinishFirstOp? {
      PutKeepsChanged(q, CurrentRow(FinishFirst(q)));
    } else if op.ResendSoonOp? {
      TerminalKeepsChanged(q, Sent, FILE_SENT, true);
    } else if op.SettleOp? {
      TerminalKeepsChanged(q, q.phase.state, q.phase.message, false);
    }
  }

  lemma TerminalKeepsChanged(q: Queue, state: TransferState, message: string, resend: bool)
    requires HasCurrent(q)
    ensures KeepsChanged(q, SetTerminal(q, state, message, resend))
  {
    PutKeepsChanged(q, CurrentRow(q).(state := state, message := message));
  }

  lemma PutKeepsChanged(q: Queue, r: Row)
    requires HasCurrent(q) && r.changed == CurrentRow(q).changed
    ensures KeepsChanged(q, SetCurrent(q, r))
  {
  }

  lemma OpenFailsKeepsChanged(c: Config, q: Queue, err: OpenError, now: int)
    requires Inv(c, q) && HasCurrent(q) && c.backoff != []
    ensures KeepsChanged(q, PreflightFailed(c, q, err, now))
  {
  }

  lemma FinishLastKeepsChanged(q: Queue)
    requires HasCurrent(q) && q.phase.Recorded?
    ensures KeepsChanged(q, FinishLast(q))
  {
  }

  lemma {:induction false} OwedUntilPicked(c: Config, q: Queue, ops: seq<Op>, dir: string, base: string)
    requires Inv(c, q) && Execution(c, q, ops)
    requires BaseName(base) && c.accepts(dir, base) && Owed(q, Join(dir, base))
    requires forall i :: 0 <= i < |ops| ==> !Picks(ops[i], Join(dir, base))
    ensures Owed(Final(c, q, ops), Join(dir, base))
    decreases |ops|
  {
    if ops != [] {
      StepKeeps(c, q, ops[0]);
      OwedStep(c, q, ops[0], dir, base);
      OwedUntilPicked(c, Apply(c, q, ops[0]), ops[1..], dir, base);
    }
  }

  // The report's content is not the one on record.
  predicate Changes(q: Queue, report: Op) {
    (report.ReadyOp? || report.SendOp?) &&
    var k := Join(report.dir, report.base);
    k in q.items && !q.items[k].orphaned ==> !SameContent(q.items[k], report.path, report.size, report.modTime)
  }

  lemma ReportOwes(c: Config, q: Queue, report: Op)
    requires Enabled(c, q, report) && Changes(q, report)
    ensures Owed(Apply(c, q, report), Join(report.dir, report.base))
  {
  }

  // The item under k is not in the goroutine's hands and shows as sent.
  predicate AtRestAsSent(q: Queue, k: string) {
    k in q.items && q.cur != InMap(k) && (q.items[k].state.Sent? || q.items[k].state.SentUnfiled?)
  }

  lemma RestOwesNothing(c: Config, q: Queue, k: string)
    requires Inv(c, q) && AtRestAsSent(q, k)
    ensures !Owed(q, k)
  {
  }

  // In every interleaving: once a change has been reported, its item cannot
  // come to rest as sent until the goroutine has picked it up again.
  lemma NoLostUpdate(c: Config, q: Queue, report: Op, ops: seq<Op>)
    requires Inv(c, q) && Enabled(c, q, report) && Changes(q, report)
    requires Execution(c, Apply(c, q, report), ops)
    requires AtRestAsSent(Final(c, Apply(c, q, report), ops), Join(report.dir, report.base))
    ensures exists i :: 0 <= i < |ops| && Picks(ops[i], Join(report.dir, report.base))
  {
    StepKeeps(c, q, report);
    ReportOwes(c, q, report);
    NoLostSince(c, Apply(c, q, report), ops, report.dir, report.base);
  }

  lemma NoLostSince(c: Config, q: Queue, ops: seq<Op>, dir: string, base: string)
    requires Inv(c, q) && Execution(c, q, ops)
    requires BaseName(base) && c.accepts(dir, base) && Owed(q, Join(dir, base))
    requires AtRestAsSent(Final(c, q, ops), Join(dir, base))
    ensures exists i :: 0 <= i < |ops| && Picks(ops[i], Join(dir, base))
  {
    RunKeeps(c, q, ops);
    RestOwesNothing(c, Final(c, q, ops), Join(dir, base));
    if forall i :: 0 <= i < |ops| ==> !Picks(ops[i], Join(dir, base)) {
      OwedUntilPicked(c, q, ops, dir, base);
    }
  }

  // A change reported while its file could not be opened: the item stays queued
  // with the reported content, even if the file was not there to open.
  lemma ChangeDuringOpenStaysQueued(c: Config, q: Queue, err: OpenError, now: int)
    requires Inv(c, q) && Enabled(c, q, OpenFailsOp(err, now))
    requires !CurrentRow(q).orphaned && CurrentRow(q).changed && !err.BadTarget?
    ensures var r := CurrentRow(q);
            var t := PreflightFailed(c, q, err, now);
            && r.name in t.items && t.items[r.name].state.Pending? && !t.items[r.name].sending
            && SameContent(t.items[r.name], r.path, r.size, r.modTime)
            && t.items[r.name].nextAttempt == Some(now + c.backoff[0])
  {
    assert CurrentRow(q).resendAfter;
  }

  // An item that is no orphan is forgotten, when its file cannot be opened, if and
  // only if the file is gone and no resend has been asked for meanwhile.
  lemma ForgottenIffVanished(c: Config, q: Queue, err: OpenError, now: int)
    requires Inv(c, q) && Enabled(c, q, OpenFailsOp(err, now)) && !CurrentRow(q).orphaned && !err.BadTarget?
    ensures CurrentRow(q).name !in PreflightFailed(c, q, err, now).items <==> err.NotExist? && !CurrentRow(q).resendAfter
  {
    assert q.cur == InMap(CurrentRow(q).name);
  }

  // --- Superseded orphans --------------------------------------------------------

  // Once an orphan's name belongs to a replacement, nothing the goroutine does
  // for the orphan touches the queue or reports anything, but for the event
  // that the upload has begun.
  lemma SupersededIsSilent(c: Config, q: Queue, op: Op)
    requires Inv(c, q) && Enabled(c, q, op) && Superseded(q) && !FromOutside(op)
    ensures Apply(c, q, op).items == q.items
    ensures !op.MarkOp? ==> Apply(c, q, op).log == q.log
  {
  }

  // And it stays superseded until its send has settled.
  lemma SupersededUntilReleased(c: Config, q: Queue, op: Op)
    requires Inv(c, q) && Enabled(c, q, op) && Superseded(q)
    ensures Superseded(Apply(c, q, op)) || Apply(c, q, op).cur.Nothing?
  {
  }

  // --- The choice of the next item -------------------------------------------------

  lemma {:induction false} BeforeTotal(a: string, b: string)
    ensures a != b ==> Before(a, b) || Before(b, a)
    ensures !(Before(a, b) && Before(b, a)) && !Before(a, a)
    decreases |a|
  {
    if a != [] {
      BeforeTotal(a[1..], a[1..]);
      if b != [] {
        BeforeTotal(a[1..], b[1..]);
        if a[0] == b[0] && a[1..] == b[1..] {
          assert a == [a[0]] + a[1..] && b == [b[0]] + b[1..];
        }
      }
    }
  }

  lemma {:induction false} BeforeTransitive(a: string, b: string, d: string)
    requires Before(a, b) && Before(b, d)
    ensures Before(a, d)
    decreases |a|
  {
    if a != [] && a[0] == b[0] && b[0] == d[0] {
      BeforeTransitive(a[1..], b[1..], d[1..]);
    }
  }

  lemma PrecedesTotal(a: Row, b: Row)
    ensures a.name != b.name ==> Precedes(a, b) || Precedes(b, a)
    ensures !(Precedes(a, b) && Precedes(b, a))
  {
    BeforeTotal(a.name, b.name);
  }

  lemma PrecedesTransitive(a: Row, b: Row, d: Row)
    requires Precedes(a, b) && Precedes(b, d)
    ensures Precedes(a, d)
  {
    if a.manual == b.manual == d.manual && a.modTime == b.modTime == d.modTime {
      BeforeTransitive(a.name, b.name, d.name);
    }
  }

  // The item chosen does not depend on the order in which the map is visited.
  lemma FirstUnique(c: Config, q: Queue, now: int, a: string, b: string)
    requires Inv(c, q) && First(q, now, a) && First(q, now, b)
    ensures a == b
  {
    PrecedesTotal(q.items[a], q.items[b]);
  }

  ghost predicate LeastOf(q: Queue, names: set<string>, k: string)
    requires names <= q.items.Keys
  {
    k in names && forall n :: n in names && n != k ==> Precedes(q.items[k], q.items[n])
  }

  lemma {:induction false} LeastExists(c: Config, q: Queue, names: set<string>) returns (k: string)
    requires Inv(c, q) && names <= q.items.Keys && names != {}
    ensures LeastOf(q, names, k)
    decreases |names|
  {
    var n :| n in names;
    if names == {n} {
      k := n;
    } else {
      var least := LeastExists(c, q, names - {n});
      PrecedesTotal(q.items[n], q.items[least]);
      if Precedes(q.items[n], q.items[least]) {
        k := n;
        forall m | m in names && m != n ensures Precedes(q.items[n], q.items[m]) {
          if m != least { PrecedesTransitive(q.items[n], q.items[least], q.items[m]); }
        }
      } else {
        k := least;
      }
    }
  }

  // Whenever something is due, something can be chosen.
  lemma FirstExists(c: Config, q: Queue, now: int, k: string) returns (first: string)
    requires Inv(c, q) && k in q.items && Candidate(q.items[k], now)
    ensures First(q, now, first)
  {
    var due := set n | n in q.items && Candidate(q.items[n], now);
    assert k in due;
    first := LeastExists(c, q, due);
  }
}
