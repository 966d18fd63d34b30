// Which item may go, and which goes first (internal/engine/scheduler.go: next,
// compareItems).
module QueueChoice {
  import opened Bytes
  import opened UploadQueue
  import opened QueueRuns
  import opened QueueTheorems

  // An item may go when it is Pending or Waiting with no time set or its time
  // come, or Failed with a time set that has come, and never otherwise.
  lemma CandidateExact(r: Row, now: int)
    ensures Candidate(r, now) <==>
            || ((r.state == Pending || r.state == Waiting) && (r.nextAttempt == None || r.nextAttempt.value <= now))
            || (r.state == Failed && r.nextAttempt != None && r.nextAttempt.value <= now)
  {
  }

  // --- Waiting for the gate ------------------------------------------------------

  predicate HoldsOnly(ops: seq<Op>) {
    forall i :: 0 <= i < |ops| ==> ops[i].HoldOp?
  }

  lemma HeldStaysDue(c: Config, q: Queue, op: Op, k: string, now: int)
    requires Enabled(c, q, op) && op.HoldOp? && k in q.items
    requires (q.items[k].state == Pending || q.items[k].state == Waiting || q.items[k].state == Failed)
    ensures var t := Apply(c, q, op);
            && t.phase == q.phase && t.items.Keys == q.items.Keys
            && t.items[k].nextAttempt == q.items[k].nextAttempt
            && (t.items[k].state == q.items[k].state || t.items[k].state == Waiting)
  {
  }

  // An item due before the gate is found closed, however often and at whatever
  // times, can still be chosen once it opens, and so something can.
  lemma {:induction false} DueSurvivesHolds(c: Config, q: Queue, ops: seq<Op>, k: string, now: int)
    requires Inv(c, q) && q.phase.Idle? && Execution(c, q, ops) && HoldsOnly(ops) && c.backoff != []
    requires k in q.items
    requires || q.items[k].state == Pending || q.items[k].state == Waiting
             || (q.items[k].state == Failed && q.items[k].nextAttempt != None)
    requires q.items[k].nextAttempt == None || q.items[k].nextAttempt.value <= now
    ensures var t := Final(c, q, ops);
            && k in t.items && Candidate(t.items[k], now)
            && exists name :: Enabled(c, t, ChooseOp(now, name))
    decreases |ops|
  {
    if ops == [] {
      CandidateExact(q.items[k], now);
      var name := FirstExists(c, q, now, k);
      assert Enabled(c, q, ChooseOp(now, name));
    } else {
      StepKeeps(c, q, ops[0]);
      assert ops[0].HoldOp?;
      HeldStaysDue(c, q, ops[0], k, now);
      assert HoldsOnly(ops[1..]) by { assert forall i :: 0 <= i < |ops| - 1 ==> ops[1..][i] == ops[i + 1]; }
      DueSurvivesHolds(c, Apply(c, q, ops[0]), ops[1..], k, now);
    }
  }

  // A closed gate shows its reason on exactly the items that could go, reports
  // each change once, and changes nothing else.
  lemma HoldExact(c: Config, q: Queue, op: Op, k: string)
    requires Inv(c, q) && Enabled(c, q, op) && op.HoldOp? && k in q.items
    ensures var r, t := q.items[k], Apply(c, q, op);
            && t.items.Keys == q.items.Keys
            && if Candidate(r, op.now) then t.items[k] == r.(state := Waiting, message := op.reason)
               else t.items[k] == r
    ensures EventsNamed(op.holds, k) ==
            if Apply(c, q, op).items[k] == q.items[k] then [] else [EventOf(Apply(c, q, op).items[k])]
  {
  }

  // --- Which goes first ------------------------------------------------------------

  // strings.Compare: a proper prefix comes first, otherwise the first character
  // that differs decides.
  ghost predicate Less(a: string, b: string) {
    exists i :: 0 <= i <= |a| && i < |b| && a[..i] == b[..i] && (i == |a| || a[i] < b[i])
  }

  lemma {:induction false} BeforeIsLess(a: string, b: string)
    ensures Before(a, b) <==> Less(a, b)
    decreases |a|
  {
    if a == "" || b == "" {
      if b != "" { assert a[..0] == b[..0]; }
    } else if a[0] != b[0] {
      assert a[..0] == b[..0];
      assert forall i :: 0 < i <= |a| && i < |b| && a[..i] == b[..i] ==> a[0] == a[..i][0] == b[..i][0] == b[0];
    } else {
      BeforeIsLess(a[1..], b[1..]);
      LessStep(a, b);
    }
  }

  lemma LessStep(a: string, b: string)
    requires a != "" && b != "" && a[0] == b[0]
    ensures Less(a, b) <==> Less(a[1..], b[1..])
  {
    var x, y := a[1..], b[1..];
    if Less(a, b) {
      var i :| 0 <= i <= |a| && i < |b| && a[..i] == b[..i] && (i == |a| || a[i] < b[i]);
      assert i > 0;
      assert x[..i - 1] == a[..i][1..] && y[..i - 1] == b[..i][1..];
    }
    if Less(x, y) {
      var i :| 0 <= i <= |x| && i < |y| && x[..i] == y[..i] && (i == |x| || x[i] < y[i]);
      assert a[..i + 1] == [a[0]] + x[..i] && b[..i + 1] == [b[0]] + y[..i];
    }
  }

  // The item chosen may go, and of the others that may none is to go before it:
  // manual sends go first, then the file changed longest ago, then the least name.
  lemma ChosenExact(c: Config, q: Queue, op: Op)
    requires Inv(c, q) && Enabled(c, q, op) && op.ChooseOp?
    ensures op.name in q.items && Candidate(q.items[op.name], op.now)
    ensures var a := q.items[op.name];
            forall k :: k in q.items && k != op.name && Candidate(q.items[k], op.now) ==>
              var b := q.items[k];
              && (b.manual ==> a.manual)
              && (a.manual == b.manual ==> a.modTime <= b.modTime)
              && (a.manual == b.manual && a.modTime == b.modTime ==> Less(op.name, k))
    ensures Apply(c, q, op).items == q.items[op.name := q.items[op.name].(sending := true, changed := false)]
    ensures Apply(c, q, op).cur == InMap(op.name)
  {
    forall k | k in q.items && k != op.name && Candidate(q.items[k], op.now)
      ensures q.items[op.name].manual == q.items[k].manual && q.items[op.name].modTime == q.items[k].modTime ==>
                Less(op.name, k)
    {
      BeforeIsLess(op.name, k);
      assert Precedes(q.items[op.name], q.items[k]);
    }
  }
}
