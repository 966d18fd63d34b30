// Two runs of the upload queue in which a change reported during a send is not
// simply sent next: what QueueSends says of them happens.
module QueueExamples {
  import opened Bytes
  import opened UploadQueue
  import opened QueueRuns
  import opened QueueTheorems
  import opened QueueSends

  const X := "x"
  const FIRST_REPORT := ReadyOp("r", "", X, "p", 1, 5)
  const SECOND_REPORT := ReadyOp("r", "", X, "p", 2, 6)
  const SOURCE := Source("r", "", X, "p", 1, 5)

  predicate Takes(c: Config) {
    c.backoff != [] && c.accepts("", X)
  }

  // The goroutine has X in hand, which is the only item and no orphan.
  predicate Holding(q: Queue, r: Row, p: Phase) {
    && q.items == map[X := r] && q.cur == InMap(X) && q.phase == p
    && r.name == X && r.root == "r" && r.dir == "" && r.base == X && r.path == "p"
    && !r.manual && !r.orphaned && r.sending
  }

  lemma Go(c: Config, q: Queue, op: Op, rest: seq<Op>)
    requires Enabled(c, q, op) && Execution(c, Apply(c, q, op), rest)
    ensures Execution(c, q, [op] + rest) && Final(c, q, [op] + rest) == Final(c, Apply(c, q, op), rest)
  {
    assert ([op] + rest)[1..] == rest;
  }

  lemma JoinedX()
    ensures Join("", X) == X && BaseName(X)
  {
  }

  // The file is reported and chosen.
  ghost predicate Started(c: Config, q: Queue) {
    && Enabled(c, EMPTY, FIRST_REPORT) && Enabled(c, Apply(c, EMPTY, FIRST_REPORT), ChooseOp(0, X))
    && q == Choose(Apply(c, EMPTY, FIRST_REPORT), X)
  }

  lemma Start(c: Config) returns (q: Queue, r: Row)
    requires Takes(c)
    ensures Started(c, q) && Holding(q, r, Chosen) && r.size == 1 && r.modTime == 5
  {
    JoinedX();
    var q0 := Apply(c, EMPTY, FIRST_REPORT);
    assert q0.items.Keys == {X};
    assert Candidate(q0.items[X], 0) && First(q0, 0, X);
    q := Choose(q0, X);
    r := q.items[X];
  }

  lemma Open(c: Config, q: Queue, r: Row)
    requires Takes(c) && Holding(q, r, Chosen)
    ensures Enabled(c, q, SnapshotOp) && Enabled(c, Apply(c, q, SnapshotOp), OpenOp(1, 5))
    ensures Holding(Apply(c, Apply(c, q, SnapshotOp), OpenOp(1, 5)), r, Opened(SOURCE))
  {
  }

  lemma Report(c: Config, q: Queue, r: Row, p: Phase)
    requires Takes(c) && Holding(q, r, p) && r.size == 1 && r.modTime == 5
    ensures Enabled(c, q, SECOND_REPORT) && Changes(q, SECOND_REPORT)
    ensures Holding(Apply(c, q, SECOND_REPORT), r.(size := 2, modTime := 6, resendAfter := true, changed := true), p)
  {
    JoinedX();
  }

  lemma Mark(c: Config, q: Queue, r: Row)
    requires Takes(c) && Holding(q, r, Opened(SOURCE))
    ensures Enabled(c, q, MarkOp)
    ensures Holding(Apply(c, q, MarkOp), r.(size := 1, state := Sending, message := SENDING), Uploading(SOURCE))
  {
  }

  lemma Upload(c: Config, q: Queue, r: Row, result: UploadResult)
    requires Takes(c) && Holding(q, r, Uploading(SOURCE))
    ensures var t := Apply(c, q, UploadOp(result));
            && Enabled(c, q, UploadOp(result)) && Enabled(c, t, FinishFirstOp)
            && Holding(Apply(c, t, FinishFirstOp), r.(resendAfter := false), Settling(SOURCE, result, r.resendAfter))
  {
  }

  lemma Succeed(c: Config, q: Queue, r: Row)
    requires Takes(c) && Holding(q, r, Settling(SOURCE, Succeeded, true))
    ensures Enabled(c, q, ResendSoonOp)
    ensures Holding(Apply(c, q, ResendSoonOp), r.(state := Sent, message := FILE_SENT), Recorded(true, true))
    ensures Enabled(c, Apply(c, q, ResendSoonOp), FinishLastOp)
  {
  }

  lemma Cancel(c: Config, q: Queue, r: Row, text: string)
    requires Takes(c) && Holding(q, r, Settling(SOURCE, UserCanceled(text), true))
    ensures Enabled(c, q, FailOp(0)) && Enabled(c, Apply(c, q, FailOp(0)), FinishLastOp)
    ensures Holding(Apply(c, q, FailOp(0)), r.(state := Failed, message := text, nextAttempt := None),
                    Recorded(false, true))
  {
  }

  lemma Stop(c: Config, q: Queue)
    ensures Execution(c, q, []) && Final(c, q, []) == q
  {
  }

  // The send is about to settle, and the item will be due, of this size.
  ghost predicate EndsDue(c: Config, s: Queue, size: int) {
    && Enabled(c, s, FinishLastOp) && s.phase.ok
    && X in FinishLast(s).items && Due(FinishLast(s).items[X]) && FinishLast(s).items[X].size == size
  }

  // It is about to settle, and the item will show this change but never be due.
  ghost predicate EndsFailed(c: Config, s: Queue, told: Told) {
    && Enabled(c, s, FinishLastOp) && X in FinishLast(s).items
    && FinishLast(s).items[X].changed && Shows(FinishLast(s).items[X], told)
    && FinishLast(s).items[X].state.Failed? && DueFrom(FinishLast(s).items[X], None)
  }

  lemma SettlesDue(c: Config, s: Queue, u: Row)
    requires Takes(c) && Holding(s, u, Recorded(true, true))
    ensures EndsDue(c, s, u.size)
  {
  }

  lemma SettlesFailed(c: Config, s: Queue, u: Row)
    requires Takes(c) && Holding(s, u, Recorded(false, true)) && u.state.Failed? && u.nextAttempt.None? && u.changed
    ensures EndsFailed(c, s, Told(u.path, u.size, u.modTime))
  {
  }

  // From the open file on: the report overtaken by the size of the open file.
  lemma Overtaken(c: Config, q: Queue, r: Row) returns (ops: seq<Op>, s: Queue)
    requires Takes(c) && Holding(q, r, Opened(SOURCE)) && r.size == 1 && r.modTime == 5
    ensures ops == [SECOND_REPORT, MarkOp, UploadOp(Succeeded), FinishFirstOp, ResendSoonOp]
    ensures Execution(c, q, ops) && s == Final(c, q, ops) && EndsDue(c, s, 1)
  {
    Report(c, q, r, Opened(SOURCE));
    var q1, r1 := Apply(c, q, SECOND_REPORT), r.(size := 2, modTime := 6, resendAfter := true, changed := true);
    Mark(c, q1, r1);
    var q2, r2 := Apply(c, q1, MarkOp), r1.(size := 1, state := Sending, message := SENDING);
    Upload(c, q2, r2, Succeeded);
    var q3 := Apply(c, q2, UploadOp(Succeeded));
    var q4, r4 := Apply(c, q3, FinishFirstOp), r2.(resendAfter := false);
    Succeed(c, q4, r4);
    s := Apply(c, q4, ResendSoonOp);
    SettlesDue(c, s, r4.(state := Sent, message := FILE_SENT));
    Stop(c, s);
    Go(c, q4, ResendSoonOp, []);
    Go(c, q3, FinishFirstOp, [ResendSoonOp]);
    Go(c, q2, UploadOp(Succeeded), [FinishFirstOp, ResendSoonOp]);
    Go(c, q1, MarkOp, [UploadOp(Succeeded), FinishFirstOp, ResendSoonOp]);
    Go(c, q, SECOND_REPORT, [MarkOp, UploadOp(Succeeded), FinishFirstOp, ResendSoonOp]);
    ops := [SECOND_REPORT, MarkOp, UploadOp(Succeeded), FinishFirstOp, ResendSoonOp];
  }

  // From the open file on: a change reported, and the send canceled.
  lemma CanceledLater(c: Config, q: Queue, r: Row, text: string) returns (ops: seq<Op>, s: Queue)
    requires Takes(c) && Holding(q, r, Opened(SOURCE)) && r.size == 1 && r.modTime == 5
    ensures ops == [MarkOp, SECOND_REPORT, UploadOp(UserCanceled(text)), FinishFirstOp, FailOp(0)]
    ensures Execution(c, q, ops) && s == Final(c, q, ops) && EndsFailed(c, s, ToldBy(SECOND_REPORT))
  {
    Mark(c, q, r);
    var q1, r1 := Apply(c, q, MarkOp), r.(size := 1, state := Sending, message := SENDING);
    Report(c, q1, r1, Uploading(SOURCE));
    var q2, r2 := Apply(c, q1, SECOND_REPORT), r1.(size := 2, modTime := 6, resendAfter := true, changed := true);
    Upload(c, q2, r2, UserCanceled(text));
    var q3 := Apply(c, q2, UploadOp(UserCanceled(text)));
    var q4, r4 := Apply(c, q3, FinishFirstOp), r2.(resendAfter := false);
    Cancel(c, q4, r4, text);
    s := Apply(c, q4, FailOp(0));
    SettlesFailed(c, s, r4.(state := Failed, message := text, nextAttempt := None));
    Stop(c, s);
    Go(c, q4, FailOp(0), []);
    Go(c, q3, FinishFirstOp, [FailOp(0)]);
    Go(c, q2, UploadOp(UserCanceled(text)), [FinishFirstOp, FailOp(0)]);
    Go(c, q1, SECOND_REPORT, [UploadOp(UserCanceled(text)), FinishFirstOp, FailOp(0)]);
    Go(c, q, MarkOp, [SECOND_REPORT, UploadOp(UserCanceled(text)), FinishFirstOp, FailOp(0)]);
    ops := [MarkOp, SECOND_REPORT, UploadOp(UserCanceled(text)), FinishFirstOp, FailOp(0)];
  }

  // The goroutine opens the file, and then these operations follow to the end.
  lemma Opens(c: Config, q: Queue, r: Row) returns (t: Queue)
    requires Takes(c) && Holding(q, r, Chosen)
    ensures Holding(t, r, Opened(SOURCE))
    ensures forall rest, s :: Execution(c, t, rest) && s == Final(c, t, rest) ==>
              Leads(c, q, [SnapshotOp, OpenOp(1, 5)] + rest, s)
  {
    Open(c, q, r);
    var q1 := Apply(c, q, SnapshotOp);
    t := Apply(c, q1, OpenOp(1, 5));
    forall rest, s | Execution(c, t, rest) && s == Final(c, t, rest)
      ensures Leads(c, q, [SnapshotOp, OpenOp(1, 5)] + rest, s)
    {
      Go(c, q1, OpenOp(1, 5), rest);
      Go(c, q, SnapshotOp, [OpenOp(1, 5)] + rest);
      assert [SnapshotOp] + ([OpenOp(1, 5)] + rest) == [SnapshotOp, OpenOp(1, 5)] + rest;
    }
  }

  ghost predicate Leads(c: Config, q: Queue, ops: seq<Op>, s: Queue) {
    Execution(c, q, ops) && s == Final(c, q, ops)
  }

  lemma OvertakenShape(rest: seq<Op>)
    requires rest == [SECOND_REPORT, MarkOp, UploadOp(Succeeded), FinishFirstOp, ResendSoonOp]
    ensures var ops := [SnapshotOp, OpenOp(1, 5)] + rest;
            Uninterrupted(ops) && LastReport(X, ops, 2) && ops[2].size == 2
  {
    JoinedX();
  }

  lemma CanceledShape(rest: seq<Op>, text: string)
    requires rest == [MarkOp, SECOND_REPORT, UploadOp(UserCanceled(text)), FinishFirstOp, FailOp(0)]
    ensures var ops := [SnapshotOp, OpenOp(1, 5)] + rest;
            Uninterrupted(ops) && LastReport(X, ops, 3) && ops[3] == SECOND_REPORT
  {
    JoinedX();
  }

  // A report of 2 bytes that arrives between the opening of the file and the
  // start of its upload, by a send that succeeds, leaves the item queued with the
  // 1 byte of the file that was open.
  lemma SizeOvertaken(c: Config) returns (q: Queue, ops: seq<Op>, s: Queue)
    requires Takes(c)
    ensures Started(c, q) && Leads(c, q, ops, s) && Uninterrupted(ops) && EndsDue(c, s, 1)
    ensures LastReport(X, ops, 2) && ops[2].size == 2
  {
    var r, t, rest;
    q, r := Start(c);
    t := Opens(c, q, r);
    rest, s := Overtaken(c, t, r);
    ops := [SnapshotOp, OpenOp(1, 5)] + rest;
    assert Leads(c, q, ops, s);
    OvertakenShape(rest);
  }

  // A change reported during a send that the operator cancels on the machine: the
  // item shows the change, and is never due again by itself.
  lemma CanceledChangeWaits(c: Config, text: string) returns (q: Queue, ops: seq<Op>, s: Queue)
    requires Takes(c)
    ensures Started(c, q) && Leads(c, q, ops, s) && Uninterrupted(ops) && EndsFailed(c, s, ToldBy(SECOND_REPORT))
    ensures LastReport(X, ops, 3) && ops[3] == SECOND_REPORT
  {
    var r, t, rest;
    q, r := Start(c);
    t := Opens(c, q, r);
    rest, s := CanceledLater(c, t, r, text);
    ops := [SnapshotOp, OpenOp(1, 5)] + rest;
    assert Leads(c, q, ops, s);
    CanceledShape(rest, text);
  }
}
