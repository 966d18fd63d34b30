// The fake clock's timer queue (internal/clock/fake.go): Advance fires one due
// timer after another, and the loop is shown to do for each timer exactly what
// its own schedule says, in the order of the deadlines.
module FakeClock {
  import opened Bytes

  // A ticker has a period; a timer has none. The id is the timer's handle.
  datatype Timer = Timer(id: nat, deadline: int, period: nat)

  datatype Firing = Firing(id: nat, at: int)

  // channels[id] is the buffered value not yet received.
  datatype State = State(now: int, pending: seq<Timer>, channels: map<nat, Option<int>>)

  // The first of the earliest timers due by target.
  predicate IsNext(p: seq<Timer>, target: int, i: nat) {
    && i < |p| && p[i].deadline <= target
    && (forall j :: 0 <= j < i ==> p[i].deadline < p[j].deadline)
    && (forall j :: i <= j < |p| ==> p[i].deadline <= p[j].deadline)
  }

  predicate NoneDue(p: seq<Timer>, target: int) {
    forall j :: 0 <= j < |p| ==> p[j].deadline > target
  }

  function Next(p: seq<Timer>, target: int): (r: Option<nat>)
    ensures r.Some? ==> IsNext(p, target, r.value)
    ensures r.None? ==> NoneDue(p, target)
  {
    if p == [] then None
    else
      var n := |p| - 1;
      var init := p[..n];
      var best := Next(init, target);
      assert forall j :: 0 <= j < n ==> p[j] == init[j];
      if p[n].deadline > target then best
      else if best.None? || p[n].deadline < p[best.value].deadline then Some(n)
      else best
  }

  lemma NextUnique(p: seq<Timer>, target: int, i: nat, j: nat)
    requires IsNext(p, target, i) && IsNext(p, target, j)
    ensures i == j
  {
  }

  function Without(p: seq<Timer>, i: nat): seq<Timer>
    requires i < |p|
  {
    p[..i] + p[i + 1..]
  }

  // One firing: a value that finds the buffer full is lost.
  function Fire(st: State, i: nat): State
    requires i < |st.pending|
  {
    var t := st.pending[i];
    State(t.deadline,
          if t.period > 0 then st.pending[i := t.(deadline := t.deadline + t.period)] else Without(st.pending, i),
          if t.id in st.channels && st.channels[t.id].Some? then st.channels else st.channels[t.id := Some(t.deadline)])
  }

  // How much is left to fire by target.
  function Due(t: Timer, target: int): nat {
    if t.deadline > target then 0 else target - t.deadline + 1
  }

  function Work(p: seq<Timer>, target: int): nat {
    if p == [] then 0 else Due(p[0], target) + Work(p[1..], target)
  }

  lemma {:induction false} WorkAppend(p: seq<Timer>, q: seq<Timer>, target: int)
    ensures Work(p + q, target) == Work(p, target) + Work(q, target)
  {
    if p == [] {
      assert p + q == q;
    } else {
      WorkAppend(p[1..], q, target);
      assert (p + q)[1..] == p[1..] + q;
    }
  }

  lemma WorkSplit(p: seq<Timer>, i: nat, target: int)
    requires i < |p|
    ensures Work(p, target) == Work(p[..i], target) + Due(p[i], target) + Work(p[i + 1..], target)
  {
    WorkAppend(p[..i], p[i..], target);
    assert p[..i] + p[i..] == p && p[i..][1..] == p[i + 1..];
  }

  // Every firing leaves less to do: tickers do not keep the loop going for ever.
  lemma FireWorks(st: State, i: nat, target: int)
    requires i < |st.pending| && st.pending[i].deadline <= target
    ensures Work(Fire(st, i).pending, target) < Work(st.pending, target)
  {
    var p, q := st.pending, Fire(st, i).pending;
    WorkSplit(p, i, target);
    if p[i].period > 0 {
      WorkSplit(q, i, target);
      assert q[..i] == p[..i] && q[i + 1..] == p[i + 1..];
    } else {
      WorkAppend(p[..i], p[i + 1..], target);
    }
  }

  // Advance, as a function of where it goes.
  function AdvanceTo(st: State, target: int): State
    decreases Work(st.pending, target)
  {
    var i := Next(st.pending, target);
    if i.None? then st.(now := target)
    else
      FireWorks(st, i.value, target);
      AdvanceTo(Fire(st, i.value), target)
  }

  // What fires on the way, in order.
  function Firings(st: State, target: int): seq<Firing>
    decreases Work(st.pending, target)
  {
    var i := Next(st.pending, target);
    if i.None? then []
    else
      var t := st.pending[i.value];
      FireWorks(st, i.value, target);
      [Firing(t.id, t.deadline)] + Firings(Fire(st, i.value), target)
  }

  // With this log behind it, a clock in this state will end there.
  ghost predicate OnWay(st: State, log: seq<Firing>, target: int, end: State, whole: seq<Firing>) {
    AdvanceTo(st, target) == end && log + Firings(st, target) == whole
  }

  lemma StaysOnWay(st: State, log: seq<Firing>, target: int, end: State, whole: seq<Firing>, i: nat)
    requires OnWay(st, log, target, end, whole) && Next(st.pending, target) == Some(i)
    ensures OnWay(Fire(st, i), log + [Firing(st.pending[i].id, st.pending[i].deadline)], target, end, whole)
    ensures Work(Fire(st, i).pending, target) < Work(st.pending, target)
  {
    FireWorks(st, i, target);
    var f, rest := Firing(st.pending[i].id, st.pending[i].deadline), Firings(Fire(st, i), target);
    assert log + ([f] + rest) == log + [f] + rest;
  }

  // --- Advancing in steps --------------------------------------------------------------

  // The next timer due by some earlier time is the next due.
  lemma NextSame(p: seq<Timer>, near: int, far: int)
    requires near <= far && Next(p, near).Some?
    ensures Next(p, far) == Next(p, near)
  {
    var i := Next(p, near).value;
    assert p[i].deadline <= far;
    NextUnique(p, far, i, Next(p, far).value);
  }

  lemma NowForgotten(st: State, now: int, target: int)
    ensures AdvanceTo(st.(now := now), target) == AdvanceTo(st, target)
    ensures Firings(st.(now := now), target) == Firings(st, target)
  {
    var i := Next(st.pending, target);
    if i.Some? {
      assert Fire(st.(now := now), i.value) == Fire(st, i.value);
    }
  }

  // Going there in two steps is going there in one.
  lemma {:induction false} AdvanceInSteps(st: State, near: int, far: int)
    requires near <= far
    ensures AdvanceTo(AdvanceTo(st, near), far) == AdvanceTo(st, far)
    ensures Firings(st, near) + Firings(AdvanceTo(st, near), far) == Firings(st, far)
    decreases Work(st.pending, near)
  {
    var i := Next(st.pending, near);
    if i.None? {
      NowForgotten(st, near, far);
    } else {
      FireWorks(st, i.value, near);
      NextSame(st.pending, near, far);
      AdvanceInSteps(Fire(st, i.value), near, far);
    }
  }

  // --- Order -------------------------------------------------------------------------

  predicate Sorted(log: seq<Firing>) {
    forall i, j :: 0 <= i <= j < |log| ==> log[i].at <= log[j].at
  }

  predicate Between(log: seq<Firing>, from: int, to: int) {
    forall i :: 0 <= i < |log| ==> from <= log[i].at <= to
  }

  // Nothing pending is overdue.
  predicate InTime(st: State) {
    forall j :: 0 <= j < |st.pending| ==> st.pending[j].deadline >= st.now
  }

  lemma FireInTime(st: State, i: nat, target: int)
    requires IsNext(st.pending, target, i)
    ensures InTime(Fire(st, i)) && Fire(st, i).now == st.pending[i].deadline <= target
  {
    var p, q := st.pending, Fire(st, i).pending;
    if p[i].period == 0 {
      assert forall j :: 0 <= j < |q| ==> q[j] == p[if j < i then j else j + 1];
    }
  }

  // Timers fire in the order of their deadlines, and none is left behind.
  lemma {:induction false} InDeadlineOrder(st: State, target: int)
    requires InTime(st) && st.now <= target
    ensures Sorted(Firings(st, target)) && Between(Firings(st, target), st.now, target)
    ensures AdvanceTo(st, target).now == target && NoneDue(AdvanceTo(st, target).pending, target)
    decreases Work(st.pending, target)
  {
    var i := Next(st.pending, target);
    if i.Some? {
      FireWorks(st, i.value, target);
      FireInTime(st, i.value, target);
      InDeadlineOrder(Fire(st, i.value), target);
    }
  }

  // --- Each timer on its own -----------------------------------------------------------

  // When one timer fires by itself up to target.
  function Schedule(t: Timer, target: int): seq<int>
    decreases Due(t, target)
  {
    if t.deadline > target then []
    else if t.period == 0 then [t.deadline]
    else [t.deadline] + Schedule(t.(deadline := t.deadline + t.period), target)
  }

  // When this timer fired, according to the log.
  function FiringsOf(log: seq<Firing>, id: nat): seq<int> {
    if log == [] then []
    else (if log[0].id == id then [log[0].at] else []) + FiringsOf(log[1..], id)
  }

  predicate OwnIds(p: seq<Timer>) {
    forall i, j :: 0 <= i < j < |p| ==> p[i].id != p[j].id
  }

  predicate Idle(p: seq<Timer>, id: nat) {
    forall j :: 0 <= j < |p| ==> p[j].id != id
  }

  // What firing timer i does to the others in the queue.
  lemma FireLeaves(st: State, i: nat)
    requires i < |st.pending| && OwnIds(st.pending)
    ensures OwnIds(Fire(st, i).pending)
    ensures forall t :: t in st.pending && t != st.pending[i] ==> t in Fire(st, i).pending && t.id != st.pending[i].id
    ensures forall id :: Idle(st.pending, id) ==> Idle(Fire(st, i).pending, id)
    ensures st.pending[i].period == 0 ==> Idle(Fire(st, i).pending, st.pending[i].id)
  {
    var p, q := st.pending, Fire(st, i).pending;
    if p[i].period == 0 {
      assert forall j :: 0 <= j < |q| ==> q[j] == p[if j < i then j else j + 1];
      forall t | t in p && t != p[i] ensures t in q {
        var j :| 0 <= j < |p| && p[j] == t;
        assert q[if j < i then j else j - 1] == t;
      }
    } else {
      forall t | t in p && t != p[i] ensures t in q {
        var j :| 0 <= j < |p| && p[j] == t;
        assert q[j] == t;
      }
    }
  }

  // The firings are the first and then the rest.
  lemma FirstFiring(st: State, target: int, id: nat)
    requires Next(st.pending, target).Some?
    ensures var i := Next(st.pending, target).value;
            FiringsOf(Firings(st, target), id) ==
            (if st.pending[i].id == id then [st.pending[i].deadline] else []) + FiringsOf(Firings(Fire(st, i), target), id)
  {
    var i := Next(st.pending, target).value;
    assert Firings(st, target)[1..] == Firings(Fire(st, i), target);
  }

  lemma {:induction false} IdleNeverFires(st: State, target: int, id: nat)
    requires OwnIds(st.pending) && Idle(st.pending, id)
    ensures FiringsOf(Firings(st, target), id) == []
    decreases Work(st.pending, target)
  {
    var i := Next(st.pending, target);
    if i.Some? {
      FireWorks(st, i.value, target);
      FireLeaves(st, i.value);
      FirstFiring(st, target, id);
      IdleNeverFires(Fire(st, i.value), target, id);
    }
  }

  // One round: what it fires of this timer, and what is left of it.
  lemma OneRound(st: State, target: int, t: Timer, i: nat)
    requires OwnIds(st.pending) && t in st.pending && Next(st.pending, target) == Some(i)
    ensures OwnIds(Fire(st, i).pending) && Work(Fire(st, i).pending, target) < Work(st.pending, target)
    ensures FiringsOf(Firings(st, target), t.id) ==
            (if t == st.pending[i] then [t.deadline] else []) + FiringsOf(Firings(Fire(st, i), target), t.id)
    ensures if t != st.pending[i] then t in Fire(st, i).pending
            else if t.period == 0 then Idle(Fire(st, i).pending, t.id)
            else t.(deadline := t.deadline + t.period) in Fire(st, i).pending
  {
    FireWorks(st, i, target);
    FireLeaves(st, i);
    FirstFiring(st, target, t.id);
    if t == st.pending[i] && t.period > 0 {
      assert Fire(st, i).pending[i] == t.(deadline := t.deadline + t.period);
    }
  }

  // Whatever else is pending, a timer fires exactly when its own schedule says:
  // once, or at every multiple of its period.
  lemma {:induction false} FiresOnSchedule(st: State, target: int, t: Timer)
    requires OwnIds(st.pending) && t in st.pending
    ensures FiringsOf(Firings(st, target), t.id) == Schedule(t, target)
    decreases Work(st.pending, target), 1
  {
    var next := Next(st.pending, target);
    if next.None? {
      assert t.deadline > target;
    } else {
      OneRound(st, target, t, next.value);
      if t != st.pending[next.value] {
        FiresOnSchedule(Fire(st, next.value), target, t);
      } else if t.period == 0 {
        IdleNeverFires(Fire(st, next.value), target, t.id);
      } else {
        TickerGoesOn(st, Fire(st, next.value), target, t);
      }
    }
  }

  // A timer fires once, when its deadline has come; a ticker at every multiple of
  // its period from its deadline to the target.
  lemma {:induction false} ScheduleExact(t: Timer, target: int)
    ensures var s := Schedule(t, target);
            && (t.deadline > target ==> s == [])
            && (t.deadline <= target && t.period == 0 ==> s == [t.deadline])
            && (t.period > 0 ==> forall i :: 0 <= i < |s| ==> s[i] == t.deadline + i * t.period && s[i] <= target)
            && (t.period > 0 ==> t.deadline + |s| * t.period > target)
    decreases Due(t, target)
  {
    if t.deadline <= target && t.period > 0 {
      var later := t.(deadline := t.deadline + t.period);
      ScheduleExact(later, target);
      var s, rest := Schedule(t, target), Schedule(later, target);
      assert s == [t.deadline] + rest;
      forall i | 0 <= i < |s| ensures s[i] == t.deadline + i * t.period && s[i] <= target {
        if i > 0 {
          assert s[i] == rest[i - 1];
          Multiple(t.deadline, t.period, i - 1);
        }
      }
      Multiple(t.deadline, t.period, |rest|);
    }
  }

  lemma Multiple(from: int, period: int, i: int)
    ensures (from + period) + i * period == from + (i + 1) * period
  {
  }

  lemma ScheduleTick(t: Timer, target: int)
    requires t.deadline <= target && t.period > 0
    ensures Schedule(t, target) == [t.deadline] + Schedule(t.(deadline := t.deadline + t.period), target)
  {
  }

  lemma {:induction false} TickerGoesOn(st: State, u: State, target: int, t: Timer)
    requires OwnIds(u.pending) && Work(u.pending, target) < Work(st.pending, target)
    requires t.deadline <= target && t.period > 0 && t.(deadline := t.deadline + t.period) in u.pending
    ensures Schedule(t, target) == [t.deadline] + FiringsOf(Firings(u, target), t.id)
    decreases Work(st.pending, target), 0
  {
    var later := t.(deadline := t.deadline + t.period);
    FiresOnSchedule(u, target, later);
    ScheduleTick(t, target);
  }

  // --- What is delivered ---------------------------------------------------------------

  // What waits in this timer's channel.
  function Waiting(st: State, id: nat): Option<int> {
    if id in st.channels then st.channels[id] else None
  }

  // One firing delivers its time, to a channel that is empty.
  lemma FireDelivers(st: State, i: nat, id: nat)
    requires i < |st.pending|
    ensures Waiting(Fire(st, i), id) ==
            if id == st.pending[i].id && Waiting(st, id) == None then Some(st.pending[i].deadline) else Waiting(st, id)
  {
  }

  // Nothing is delivered to a full channel or for a timer that is not pending.
  lemma {:induction false} NothingDelivered(st: State, target: int, id: nat)
    requires OwnIds(st.pending) && (Idle(st.pending, id) || Waiting(st, id) != None)
    ensures Waiting(AdvanceTo(st, target), id) == Waiting(st, id)
    decreases Work(st.pending, target)
  {
    var i := Next(st.pending, target);
    if i.Some? {
      FireWorks(st, i.value, target);
      FireLeaves(st, i.value);
      FireDelivers(st, i.value, id);
      NothingDelivered(Fire(st, i.value), target, id);
    }
  }

  // After an advance an empty channel holds the first time its timer's schedule
  // gives, and is still empty if there is none; a full one keeps what it held.
  lemma {:induction false} DeliversFirst(st: State, target: int, t: Timer)
    requires OwnIds(st.pending) && t in st.pending
    ensures Waiting(AdvanceTo(st, target), t.id) ==
            if Waiting(st, t.id) != None then Waiting(st, t.id)
            else if Schedule(t, target) == [] then None
            else Some(Schedule(t, target)[0])
    decreases Work(st.pending, target)
  {
    var next := Next(st.pending, target);
    if next.Some? {
      OneRound(st, target, t, next.value);
      FireDelivers(st, next.value, t.id);
      if t != st.pending[next.value] {
        OtherTimer(st, next.value, t);
        DeliversFirst(Fire(st, next.value), target, t);
      } else {
        assert Schedule(t, target)[0] == t.deadline;
        NothingDelivered(Fire(st, next.value), target, t.id);
      }
    } else {
      assert t.deadline > target;
    }
  }

  lemma OtherTimer(st: State, i: nat, t: Timer)
    requires OwnIds(st.pending) && t in st.pending && i < |st.pending| && t != st.pending[i]
    ensures t.id != st.pending[i].id
  {
  }

  // Every pending timer has a handle of its own, below n.
  predicate Handled(p: seq<Timer>, n: nat) {
    OwnIds(p) && forall i :: 0 <= i < |p| ==> p[i].id < n
  }

  lemma FireHandled(st: State, i: nat, n: nat)
    requires i < |st.pending| && Handled(st.pending, n)
    ensures Handled(Fire(st, i).pending, n)
  {
    var p, q := st.pending, Fire(st, i).pending;
    if p[i].period == 0 {
      assert forall j :: 0 <= j < |q| ==> q[j] == p[if j < i then j else j + 1];
    }
  }

  lemma RemovedOne(p: seq<Timer>, i: nat, n: nat)
    requires i < |p| && Handled(p, n)
    ensures Handled(p[..i] + p[i + 1..], n) && Idle(p[..i] + p[i + 1..], p[i].id)
    ensures forall t :: t in p[..i] + p[i + 1..] <==> t in p && t.id != p[i].id
  {
    var q := p[..i] + p[i + 1..];
    assert forall j :: 0 <= j < |q| ==> q[j] == p[if j < i then j else j + 1];
    forall t | t in p && t.id != p[i].id ensures t in q {
      var j :| 0 <= j < |p| && p[j] == t;
      assert q[if j < i then j else j - 1] == t;
    }
  }

  lemma {:induction false} AdvanceHandled(st: State, target: int, n: nat)
    requires Handled(st.pending, n)
    ensures Handled(AdvanceTo(st, target).pending, n)
    decreases Work(st.pending, target)
  {
    var i := Next(st.pending, target);
    if i.Some? {
      FireWorks(st, i.value, target);
      FireHandled(st, i.value, n);
      AdvanceHandled(Fire(st, i.value), target, n);
    }
  }

  // --- The clock ---------------------------------------------------------------------

  class Fake {
    var now: int
    var pending: seq<Timer>
    var channels: map<nat, Option<int>>
    var handles: nat          // handles given out so far
    ghost var log: seq<Firing>

    ghost function View(): State
      reads this
    {
      State(now, pending, channels)
    }

    // Handles are not reused, and a timer is pending at most once.
    ghost predicate Valid()
      reads this
    {
      Handled(pending, handles)
    }

    constructor (start: int)
      ensures Valid() && View() == State(start, [], map[]) && log == []
    {
      now, pending, channels, handles, log := start, [], map[], 0, [];
    }

    method Enqueue(id: nat, deadline: int, period: nat)
      requires Valid() && Idle(pending, id) && id < handles
      modifies this`pending
      ensures Valid() && pending == old(pending) + [Timer(id, deadline, period)]
    {
      pending := pending + [Timer(id, deadline, period)];
    }

    method NewTimer(d: int) returns (id: nat)
      requires Valid()
      modifies this`pending, this`handles, this`channels
      ensures Valid() && Idle(old(pending), id) && pending == old(pending) + [Timer(id, now + d, 0)]
      ensures channels == old(channels)[id := None]
    {
      id, handles := handles, handles + 1;
      channels := channels[id := None];
      Enqueue(id, now + d, 0);
    }

    method NewTicker(d: int) returns (r: Option<nat>)
      requires Valid()
      modifies this`pending, this`handles, this`channels
      ensures Valid() && (r.None? <==> d <= 0) && (r.None? ==> View() == old(View()))
      ensures d > 0 ==> Idle(old(pending), r.value) && pending == old(pending) + [Timer(r.value, now + d, d)]
      ensures d > 0 ==> channels == old(channels)[r.value := None]
    {
      if d <= 0 {
        return None; // the source panics
      }
      var id := handles;
      handles := handles + 1;
      channels := channels[id := None];
      Enqueue(id, now + d, d);
      r := Some(id);
    }

    // The index of the earliest timer due, by one pass over the queue.
    method NextDue(target: int) returns (best: int)
      ensures best == match Next(pending, target) case None => -1 case Some(i) => i
    {
      best := -1;
      for i := 0 to |pending|
        invariant best == match Next(pending[..i], target) case None => -1 case Some(j) => j
      {
        assert pending[..i + 1][..i] == pending[..i];
        if pending[i].deadline <= target && (best < 0 || pending[i].deadline < pending[best].deadline) {
          best := i;
        }
      }
      assert pending[..|pending|] == pending;
    }

    method FireOne(i: nat)
      requires i < |pending|
      modifies this`now, this`pending, this`channels, this`log
      ensures View() == Fire(old(View()), i)
      ensures log == old(log) + [Firing(old(pending)[i].id, old(pending)[i].deadline)]
    {
      var t := pending[i];
      now := t.deadline;
      if !(t.id in channels && channels[t.id].Some?) {
        channels := channels[t.id := Some(now)];
      }
      if t.period > 0 {
        pending := pending[i := t.(deadline := t.deadline + t.period)];
      } else {
        pending := pending[..i] + pending[i + 1..];
      }
      log := log + [Firing(t.id, t.deadline)];
    }

    // One round of the loop.
    method FireNext(i: nat, target: int, ghost end: State, ghost whole: seq<Firing>)
      requires OnWay(View(), log, target, end, whole) && Next(pending, target) == Some(i)
      modifies this`now, this`pending, this`channels, this`log
      ensures OnWay(View(), log, target, end, whole)
      ensures Work(pending, target) < old(Work(pending, target))
    {
      StaysOnWay(View(), log, target, end, whole, i);
      FireOne(i);
    }

    // AdvanceHandled tells that the clock stays valid.
    method Advance(d: int)
      modifies this`now, this`pending, this`channels, this`log
      ensures View() == AdvanceTo(old(View()), old(now) + d)
      ensures log == old(log) + Firings(old(View()), old(now) + d)
    {
      var target := now + d;
      ghost var end, whole := AdvanceTo(View(), target), log + Firings(View(), target);
      FireDue(target, end, whole);
      now := target;
    }

    // The loop up to the point where nothing more is due.
    method FireDue(target: int, ghost end: State, ghost whole: seq<Firing>)
      requires OnWay(View(), log, target, end, whole)
      modifies this`now, this`pending, this`channels, this`log
      ensures OnWay(View(), log, target, end, whole) && Next(pending, target) == None
    {
      var i := NextDue(target);
      while i >= 0
        invariant OnWay(View(), log, target, end, whole)
        invariant i == match Next(pending, target) case None => -1 case Some(j) => j
        decreases Work(pending, target), i
      {
        FireNext(i, target, end, whole);
        i := NextDue(target);
      }
    }

    method Remove(id: nat) returns (found: bool)
      requires Valid()
      modifies this`pending
      ensures Valid() && Idle(pending, id) && (found <==> !Idle(old(pending), id))
      ensures forall t :: t in pending <==> t in old(pending) && t.id != id
    {
      for i := 0 to |pending|
        invariant pending == old(pending) && Idle(pending[..i], id)
      {
        if pending[i].id == id {
          RemovedOne(pending, i, handles);
          pending := pending[..i] + pending[i + 1..];
          return true;
        }
        assert pending[..i + 1] == pending[..i] + [pending[i]];
      }
      assert pending[..|pending|] == pending;
      return false;
    }

    method Stop(id: nat) returns (wasActive: bool)
      requires Valid()
      modifies this`pending
      ensures Valid() && Idle(pending, id) && (wasActive <==> !Idle(old(pending), id))
      ensures forall t :: t in pending <==> t in old(pending) && t.id != id
    {
      wasActive := Remove(id);
    }

    // A value already fired and not yet received is drained, so the next one
    // received is the new firing's.
    method Reset(id: nat, d: int) returns (wasActive: bool)
      requires Valid() && id < handles
      modifies this`pending, this`channels
      ensures Valid() && (wasActive <==> !Idle(old(pending), id))
      ensures forall t :: t in pending <==> t == Timer(id, now + d, 0) || (t in old(pending) && t.id != id)
      ensures channels == old(channels)[id := None]
    {
      wasActive := Remove(id);
      channels := channels[id := None];
      Enqueue(id, now + d, 0);
    }
  }
}
