// The upload scheduler as internal/engine/scheduler.go runs it: items shared by
// reference between the map and the goroutine, updated in place, one method for
// each section that holds the lock. Each method is proved to do what the
// operation of UploadQueue of the same name does.
module Scheduler {
  import opened Bytes
  import opened UploadQueue
  import QueueTheorems

  // One shared item: a mutable cell holding its fields.
  class Item {
    var row: Row

    constructor (row: Row)
      ensures this.row == row
    {
      this.row := row;
    }
  }

  // clearNonManual once the names in done have been dealt with.
  ghost function HalfCleared(q: Queue, done: set<string>, keep: string): Queue {
    q.(items := map k | k in q.items && !(k in done && Leaves(q.items[k], keep)) ::
                  if k in done then AfterClear(q.items[k], keep) else q.items[k],
       cur := if q.cur.InMap? && q.cur.name in q.items && q.cur.name in done && Leaves(q.items[q.cur.name], keep)
              then Detached(AfterClear(q.items[q.cur.name], keep)) else q.cur)
  }

  lemma ClearMore(q: Queue, done: set<string>, k: string, keep: string)
    requires k in q.items && k !in done
    ensures HalfCleared(q, done, keep).items[k] == q.items[k]
    ensures ClearOne(HalfCleared(q, done, keep), k, keep) == HalfCleared(q, done + {k}, keep)
  {
    assert ClearOne(HalfCleared(q, done, keep), k, keep).items == HalfCleared(q, done + {k}, keep).items;
  }

  lemma ClearedNone(q: Queue, keep: string)
    ensures HalfCleared(q, {}, keep) == q
  {
    assert HalfCleared(q, {}, keep).items == q.items;
  }

  lemma ClearedAll(q: Queue, keep: string, drops: seq<Event>)
    requires DropsSoFar(q, q.items.Keys, keep, drops)
    ensures HalfCleared(q, q.items.Keys, keep).(log := q.log + drops) == ClearNonManual(q, keep, drops)
    ensures DropsOf(q, keep, drops)
  {
    assert HalfCleared(q, q.items.Keys, keep).items == Cleared(q.items, keep);
  }

  predicate OwnNames(q: Queue) {
    forall k :: k in q.items ==> q.items[k].name == k
  }

  ghost predicate DropsSoFar(q: Queue, done: set<string>, keep: string, drops: seq<Event>) {
    && OwnNames(q)
    && forall k :: EventsNamed(drops, k) == if k in done && k in q.items then DropEvents(q.items[k], keep) else []
  }

  lemma OneEventMore(events: seq<Event>, more: seq<Event>, k: string)
    requires |more| <= 1
    ensures EventsNamed(events + more, k) == EventsNamed(events, k) + if more != [] && more[0].name == k then more else []
  {
    if more == [] {
      assert events + more == events;
    } else {
      assert (events + more)[..|events|] == events;
    }
  }

  lemma MoreDrops(q: Queue, done: set<string>, k: string, keep: string, drops: seq<Event>)
    requires k in q.items && k !in done && DropsSoFar(q, done, keep, drops)
    ensures DropsSoFar(q, done + {k}, keep, drops + DropEvents(q.items[k], keep))
  {
    var more := DropEvents(q.items[k], keep);
    forall n
      ensures EventsNamed(drops + more, n) == if n in done + {k} && n in q.items then DropEvents(q.items[n], keep) else []
    {
      OneEventMore(drops, more, n);
    }
  }

  lemma NoneLeft<T>(all: set<T>, done: set<T>)
    requires Splits(all, done, {})
    ensures done == all
  {
  }

  // The best candidate among the names in done.
  predicate BestOf(q: Queue, done: set<string>, now: int, best: Option<string>)
    requires done <= q.items.Keys
  {
    match best
    case None => forall k :: k in done ==> !Candidate(q.items[k], now)
    case Some(b) =>
      && b in done && Candidate(q.items[b], now)
      && forall k :: k in done && k != b && Candidate(q.items[k], now) ==> Precedes(q.items[b], q.items[k])
  }

  predicate BestSoFar(q: Queue, done: set<string>, todo: set<string>, now: int, best: Option<string>) {
    Splits(q.items.Keys, done, todo) && done <= q.items.Keys && BestOf(q, done, now, best)
  }

  function Better(q: Queue, now: int, best: Option<string>, k: string): Option<string>
    requires k in q.items && (best.Some? ==> best.value in q.items)
  {
    if Candidate(q.items[k], now) && (best.None? || Precedes(q.items[k], q.items[best.value])) then Some(k) else best
  }

  lemma BestMore(q: Queue, done: set<string>, now: int, best: Option<string>, k: string)
    requires done <= q.items.Keys && k in q.items && k !in done && BestOf(q, done, now, best)
    requires forall n :: n in q.items ==> q.items[n].name == n
    ensures BestOf(q, done + {k}, now, Better(q, now, best, k))
  {
    if best.Some? && Candidate(q.items[k], now) {
      var b := best.value;
      QueueTheorems.PrecedesTotal(q.items[k], q.items[b]);
      if Precedes(q.items[k], q.items[b]) {
        forall n | n in done && n != b && Candidate(q.items[n], now) ensures Precedes(q.items[k], q.items[n]) {
          QueueTheorems.PrecedesTransitive(q.items[k], q.items[b], q.items[n]);
        }
      }
    }
  }

  // next, with the gate closed, once the names in done have been dealt with.
  ghost function HalfHeld(q: Queue, done: set<string>, now: int, reason: string, holds: seq<Event>): Queue {
    q.(items := map k | k in q.items :: if k in done then HoldRow(q.items[k], now, reason) else q.items[k],
       log := q.log + holds)
  }

  function HoldOne(q: Queue, k: string, now: int, reason: string): Queue
    requires k in q.items
  {
    q.(items := q.items[k := HoldRow(q.items[k], now, reason)], log := q.log + HoldEvents(q.items[k], now, reason))
  }

  lemma HoldMore(q: Queue, done: set<string>, k: string, now: int, reason: string, holds: seq<Event>)
    requires k in q.items && k !in done
    ensures HoldOne(HalfHeld(q, done, now, reason, holds), k, now, reason)
         == HalfHeld(q, done + {k}, now, reason, holds + HoldEvents(q.items[k], now, reason))
  {
    var half := HalfHeld(q, done, now, reason, holds);
    var t := HalfHeld(q, done + {k}, now, reason, holds + HoldEvents(q.items[k], now, reason));
    assert half.items[k] == q.items[k];
    assert HoldOne(half, k, now, reason).items == t.items;
    assert HoldOne(half, k, now, reason).log == t.log;
  }

  lemma HoldNothing(q: Queue, k: string, now: int, reason: string)
    requires k in q.items && !Held(q.items[k], now, reason)
    ensures HoldOne(q, k, now, reason) == q
  {
    assert q.items[k := q.items[k]] == q.items && q.log + [] == q.log;
  }

  lemma HeldNone(q: Queue, now: int, reason: string)
    ensures HalfHeld(q, {}, now, reason, []) == q
  {
    assert HalfHeld(q, {}, now, reason, []).items == q.items;
  }

  lemma HeldAll(q: Queue, now: int, reason: string, holds: seq<Event>)
    requires HoldsSoFar(q, q.items.Keys, now, reason, holds)
    ensures HalfHeld(q, q.items.Keys, now, reason, holds) == Hold(q, now, reason, holds)
    ensures HoldsOf(q, now, reason, holds)
  {
    assert HalfHeld(q, q.items.Keys, now, reason, holds).items == Hold(q, now, reason, holds).items;
  }

  ghost predicate HoldsSoFar(q: Queue, done: set<string>, now: int, reason: string, holds: seq<Event>) {
    && OwnNames(q)
    && forall k :: EventsNamed(holds, k) == if k in done && k in q.items then HoldEvents(q.items[k], now, reason) else []
  }

  lemma MoreHolds(q: Queue, done: set<string>, k: string, now: int, reason: string, holds: seq<Event>)
    requires k in q.items && k !in done && HoldsSoFar(q, done, now, reason, holds)
    ensures HoldsSoFar(q, done + {k}, now, reason, holds + HoldEvents(q.items[k], now, reason))
  {
    var more := HoldEvents(q.items[k], now, reason);
    forall n
      ensures EventsNamed(holds + more, n) ==
              if n in done + {k} && n in q.items then HoldEvents(q.items[n], now, reason) else []
    {
      OneEventMore(holds, more, n);
    }
  }

  predicate Splits<T(==)>(all: set<T>, done: set<T>, todo: set<T>) {
    done + todo == all && done !! todo
  }

  lemma MoveOver<T>(all: set<T>, done: set<T>, todo: set<T>, k: T)
    requires Splits(all, done, todo) && k in todo
    ensures Splits(all, done + {k}, todo - {k}) && k !in done && k in all
  {
  }

  class Scheduler {
    var items: map<string, Item>
    var log: seq<Event>      // what the dispatcher has been given
    var cur: Item?           // the item the goroutine holds
    ghost var phase: Phase   // where the goroutine stands

    ghost predicate Valid()
      reads this, items.Values
    {
      forall k :: k in items ==> items[k].row.name == k
    }

    ghost function Rows(): map<string, Row>
      reads this, items.Values
    {
      map k | k in items :: items[k].row
    }

    ghost function CurrentView(): Current
      reads this, items.Values, cur
    {
      if cur == null then Nothing
      else if cur.row.name in items && items[cur.row.name] == cur then InMap(cur.row.name)
      else Detached(cur.row)
    }

    ghost function View(): Queue
      reads this, items.Values, cur
    {
      Queue(Rows(), CurrentView(), phase, log)
    }

    constructor ()
      ensures Valid() && View() == Queue(map[], Nothing, Idle, [])
    {
      items, log, cur, phase := map[], [], null, Idle;
    }

    // A new item takes the name k, whatever was there before.
    twostate lemma Inserted(k: string, new it: Item)
      requires old(Valid()) && items == old(items)[k := it] && cur == old(cur) && phase == old(phase) && log == old(log)
      requires fresh(it) && it.row.name == k
      requires forall i :: i in old(items) ==> old(items)[i].row == old(items[i].row)
      requires cur != null ==> cur.row == old(cur.row)
      ensures Valid()
      ensures View() == Insert(old(View()), k, it.row)
    {
      forall i | i in items && i != k ensures items[i].row == old(items[i].row) && items[i].row.name == i {
        assert items[i] in old(items).Values;
      }
      assert Rows() == old(Rows())[k := it.row];
    }

    // The item under name takes the row r.
    method Put(name: string, it: Item, r: Row)
      requires Valid() && name in items && items[name] == it && r.name == name
      modifies it
      ensures Valid() && it.row == r
      ensures View() == old(View()).(items := old(View().items)[name := r])
    {
      it.row := r;
      assert Rows() == old(Rows())[name := r];
      assert CurrentView() == old(CurrentView());
    }

    // A new item under name, holding the row r.
    method Add(name: string, r: Row)
      requires Valid() && r.name == name
      modifies this`items
      ensures Valid() && name in items && fresh(items[name]) && items == old(items)[name := items[name]]
      ensures View() == Insert(old(View()), name, r)
    {
      var it := new Item(r);
      items := items[name := it];
      Inserted(name, it);
    }

    method ItemLocked(root: string, dir: string, base: string) returns (it: Item)
      requires Valid()
      modifies this`items, items.Values
      ensures Valid() && View() == UploadQueue.ItemLocked(old(View()), root, dir, base)
      ensures Join(dir, base) in items && items[Join(dir, base)] == it
      ensures fresh(items.Values - old(items.Values))
    {
      var name := Join(dir, base);
      ghost var q := View();
      if name in items && !items[name].row.orphaned {
        Put(name, items[name], items[name].row.(root := root, dir := dir, base := base));
        assert View() == UploadQueue.ItemLocked(q, root, dir, base);
      } else {
        Add(name, NewRow(name).(root := root, dir := dir, base := base));
        assert View() == UploadQueue.ItemLocked(q, root, dir, base);
      }
      it := items[name];
    }

    method Emit(r: Row)
      requires Valid()
      modifies this`log
      ensures Valid() && View() == UploadQueue.Emit(old(View()), r)
    {
      log := log + [EventOf(r)];
    }

    method EmitAll(events: seq<Event>)
      requires Valid()
      modifies this`log
      ensures Valid() && View() == old(View()).(log := old(View().log) + events)
    {
      log := log + events;
    }

    method Ready(root: string, dir: string, base: string, path: string, size: int, modTime: int)
      requires Valid()
      modifies this`items, this`log, items.Values
      ensures Valid() && View() == UploadQueue.Ready(old(View()), root, dir, base, path, size, modTime)
    {
      var it := ItemLocked(root, dir, base);
      if it.row.manual && SameContent(it.row, path, size, modTime) {
        return;
      }
      var r := WithContent(it.row, path, size, modTime);
      r := if r.sending then r.(resendAfter := true) else Rearm(r).(manual := false);
      Put(Join(dir, base), it, r);
      Emit(r);
    }

    method Rejected(root: string, dir: string, base: string, path: string, reason: string)
      requires Valid()
      modifies this`items, this`log, items.Values
      ensures Valid() && View() == UploadQueue.Reject(old(View()), root, dir, base, path, reason)
    {
      var it := ItemLocked(root, dir, base);
      var r := it.row.(path := path, state := TransferState.Rejected, message := reason, sending := false);
      Put(Join(dir, base), it, r);
      Emit(r);
    }

    method SendFile(root: string, dir: string, base: string, path: string, size: int, modTime: int)
      requires Valid()
      modifies this`items, this`log, items.Values
      ensures Valid() && View() == UploadQueue.SendFile(old(View()), root, dir, base, path, size, modTime)
    {
      var it := ItemLocked(root, dir, base);
      var differs := !SameContent(it.row, path, size, modTime);
      var r := WithContent(it.row, path, size, modTime).(manual := true);
      if !r.sending {
        r := Rearm(r);
      } else if differs {
        r := r.(resendAfter := true);
      }
      Put(Join(dir, base), it, r);
      Emit(r);
    }

    method Retry(name: string)
      requires Valid()
      modifies this`log, items.Values
      ensures Valid() && View() == UploadQueue.Retry(old(View()), name)
    {
      if name in items && items[name].row.state.Retryable() {
        var r := Rearm(items[name].row);
        Put(name, items[name], r);
        Emit(r);
      }
    }

    // --- A folder switch ------------------------------------------------------

    // dropLocked.
    method Drop(k: string, it: Item, message: string) returns (events: seq<Event>)
      requires Valid() && k in items && items[k] == it
      modifies this`items, it
      ensures Valid() && items == old(items) - {k}
      ensures View() == Removed(old(View()), k, DroppedRow(old(it.row), message))
      ensures events == if ReportsDrop(old(it.row)) then [EventOf(it.row)] else []
      ensures it.row == DroppedRow(old(it.row), message)
    {
      items := items - {k};
      events := [];
      if ReportsDrop(it.row) {
        it.row := DroppedRow(it.row, message);
        events := [EventOf(it.row)];
      }
      assert Rows() == old(Rows()) - {k};
    }

    method ClearItem(k: string, it: Item, keep: string) returns (events: seq<Event>)
      requires Valid() && k in items && items[k] == it
      modifies this`items, it
      ensures Valid() && View() == ClearOne(old(View()), k, keep)
      ensures events == DropEvents(old(it.row), keep)
      ensures forall j :: j in items ==> j in old(items) && items[j] == old(items)[j]
      ensures items.Keys >= old(items.Keys) - {k}
    {
      if Kept(it.row, keep) {
        events := [];
      } else if it.row.sending {
        events := [];
        Put(k, it, it.row.(orphaned := true));
      } else {
        events := Drop(k, it, FOLDER_CHANGED);
      }
    }

    // One round of the loop over the names.
    method ClearNext(k: string, keep: string, drops: seq<Event>, ghost q: Queue, ghost done: set<string>)
      returns (more: seq<Event>)
      requires Valid() && View() == HalfCleared(q, done, keep) && DropsSoFar(q, done, keep, drops)
      requires k in items && k !in done
      modifies this`items, items[k]
      ensures Valid() && View() == HalfCleared(q, done + {k}, keep) && DropsSoFar(q, done + {k}, keep, more)
      ensures forall j :: j in items ==> j in old(items) && items[j] == old(items)[j]
    {
      assert k in View().items;
      ClearMore(q, done, k, keep);
      MoreDrops(q, done, k, keep, drops);
      var events := ClearItem(k, items[k], keep);
      more := drops + events;
    }

    method ClearItems(keep: string, ghost q: Queue) returns (drops: seq<Event>)
      requires Valid() && View() == q
      modifies this`items, items.Values
      ensures Valid() && View() == HalfCleared(q, q.items.Keys, keep)
      ensures DropsSoFar(q, q.items.Keys, keep, drops)
    {
      ghost var done := {};
      var todo := items.Keys;
      drops := [];
      ClearedNone(q, keep);
      while todo != {}
        invariant Valid() && View() == HalfCleared(q, done, keep) && DropsSoFar(q, done, keep, drops)
        invariant Splits(q.items.Keys, done, todo)
        invariant forall j :: j in items ==> j in old(items) && items[j] == old(items)[j]
        decreases |todo|
      {
        var k :| k in todo;
        MoveOver(q.items.Keys, done, todo, k);
        assert k in HalfCleared(q, done, keep).items;
        drops := ClearNext(k, keep, drops, q, done);
        todo := todo - {k};
        done := done + {k};
      }
    }

    method ClearNonManual(keep: string) returns (ghost drops: seq<Event>)
      requires Valid()
      modifies this`items, this`log, items.Values
      ensures Valid() && DropsOf(old(View()), keep, drops)
      ensures View() == UploadQueue.ClearNonManual(old(View()), keep, drops)
    {
      ghost var q := View();
      var dropped := ClearItems(keep, q);
      EmitAll(dropped);
      ClearedAll(q, keep, dropped);
      drops := dropped;
    }

    // --- Choosing the next item -------------------------------------------------

    method BetterOf(best: Option<string>, k: string, now: int,
                    ghost q: Queue, ghost done: set<string>, ghost todo: set<string>)
      returns (r: Option<string>)
      requires Valid() && View() == q && k in todo && BestSoFar(q, done, todo, now, best)
      ensures BestSoFar(q, done + {k}, todo - {k}, now, r)
    {
      MoveOver(q.items.Keys, done, todo, k);
      BestMore(q, done, now, best, k);
      r := best;
      if Candidate(items[k].row, now) && (best.None? || Precedes(items[k].row, items[best.value].row)) {
        r := Some(k);
      }
    }

    method Best(now: int, ghost q: Queue) returns (best: Option<string>)
      requires Valid() && View() == q
      ensures BestOf(q, q.items.Keys, now, best)
    {
      ghost var done := {};
      var todo := items.Keys;
      best := None;
      while todo != {}
        invariant BestSoFar(q, done, todo, now, best)
        decreases |todo|
      {
        var k :| k in todo;
        best := BetterOf(best, k, now, q, done, todo);
        todo := todo - {k};
        done := done + {k};
      }
      NoneLeft(q.items.Keys, done);
    }

    method Take(k: string, it: Item)
      requires Valid() && k in items && items[k] == it
      modifies this`cur, this`phase
      ensures Valid() && cur == it && View() == old(View()).(cur := InMap(k), phase := Chosen)
    {
      cur, phase := it, Chosen;
    }

    // next, with the gate open.
    method ChooseNext(now: int) returns (it: Item?)
      requires Valid()
      modifies this`cur, this`phase, items.Values
      ensures Valid() && cur == (if it == null then old(cur) else it)
      ensures it == null ==> View() == old(View())
      ensures it == null <==>
              forall k :: k in old(View()).items ==>
                var r := old(View()).items[k];
                && (r.state == Pending || r.state == Waiting ==> r.nextAttempt != None && r.nextAttempt.value > now)
                && (r.state == TransferState.Failed ==> r.nextAttempt == None || r.nextAttempt.value > now)
      ensures it != null ==> First(old(View()), now, it.row.name) && View() == Choose(old(View()), it.row.name)
    {
      var best := Best(now, View());
      it := null;
      if best.Some? {
        it := items[best.value];
        assert First(old(View()), now, best.value);
        Put(best.value, it, it.row.(sending := true, changed := false));
        Take(best.value, it);
        assert it.row.name == best.value;
      }
    }

    method HoldItem(k: string, it: Item, now: int, reason: string) returns (ghost events: seq<Event>)
      requires Valid() && k in items && items[k] == it
      modifies this`log, it
      ensures Valid() && View() == HoldOne(old(View()), k, now, reason)
      ensures events == HoldEvents(old(it.row), now, reason)
    {
      events := HoldEvents(it.row, now, reason);
      if Held(it.row, now, reason) {
        Put(k, it, it.row.(state := Waiting, message := reason));
        Emit(it.row);
      } else {
        HoldNothing(View(), k, now, reason);
      }
    }

    // One round of the loop over the candidates.
    method HoldNext(k: string, now: int, reason: string, ghost holds: seq<Event>, ghost q: Queue, ghost done: set<string>)
      returns (ghost more: seq<Event>)
      requires Valid() && View() == HalfHeld(q, done, now, reason, holds) && HoldsSoFar(q, done, now, reason, holds)
      requires k in items && k in q.items && k !in done
      modifies this`log, items[k]
      ensures Valid() && View() == HalfHeld(q, done + {k}, now, reason, more)
      ensures HoldsSoFar(q, done + {k}, now, reason, more)
    {
      assert View().items[k] == q.items[k];
      HoldMore(q, done, k, now, reason, holds);
      MoreHolds(q, done, k, now, reason, holds);
      ghost var events := HoldItem(k, items[k], now, reason);
      more := holds + events;
    }

    // next, with the gate closed for this reason.
    method HoldAll(now: int, reason: string) returns (ghost holds: seq<Event>)
      requires Valid()
      modifies this`log, items.Values
      ensures Valid() && HoldsOf(old(View()), now, reason, holds)
      ensures View() == Hold(old(View()), now, reason, holds)
    {
      ghost var q, done := View(), {};
      var todo := items.Keys;
      holds := [];
      HeldNone(q, now, reason);
      while todo != {}
        invariant Valid() && View() == HalfHeld(q, done, now, reason, holds) && HoldsSoFar(q, done, now, reason, holds)
        invariant Splits(q.items.Keys, done, todo)
        decreases |todo|
      {
        var k :| k in todo;
        MoveOver(q.items.Keys, done, todo, k);
        assert k in HalfHeld(q, done, now, reason, holds).items;
        holds := HoldNext(k, now, reason, holds, q, done);
        todo := todo - {k};
        done := done + {k};
      }
      HeldAll(q, now, reason, holds);
    }

    // --- The item the goroutine holds ----------------------------------------

    method SetCurrent(r: Row)
      requires Valid() && cur != null && r.name == cur.row.name
      modifies cur
      ensures Valid() && cur.row == r
      ensures View() == UploadQueue.SetCurrent(old(View()), r)
    {
      cur.row := r;
      if cur.row.name in items && items[cur.row.name] == cur {
        assert Rows() == old(Rows())[cur.row.name := r];
      } else {
        assert Rows() == old(Rows());
      }
    }

    method Release()
      requires Valid()
      modifies this`cur, this`phase
      ensures Valid() && View() == UploadQueue.Release(old(View())) && cur == null
    {
      cur, phase := null, Idle;
    }

    method GoTo(ghost p: Phase)
      requires Valid()
      modifies this`phase
      ensures Valid() && View() == old(View()).(phase := p)
    {
      phase := p;
    }

    predicate IsSuperseded()
      requires cur != null
      reads this, cur
      ensures Valid() ==> (IsSuperseded() <==> Superseded(View()))
    {
      cur.row.orphaned && !(cur.row.name in items && items[cur.row.name] == cur)
    }

    method EmitUnless(skip: bool, r: Row)
      requires Valid()
      modifies this`log
      ensures Valid() && View() == UploadQueue.EmitUnless(old(View()), skip, r)
    {
      if !skip {
        Emit(r);
      }
    }

    method DropCurrent(message: string)
      requires Valid() && cur != null
      modifies this`items, this`log, cur
      ensures Valid() && View() == UploadQueue.DropCurrent(old(View()), message)
      ensures cur == old(cur) && cur.row == DroppedRow(old(cur.row), message)
    {
      var name := cur.row.name;
      items := items - {name};
      var reports := ReportsDrop(cur.row);
      cur.row := DroppedRow(cur.row, message);
      assert Rows() == old(Rows()) - {name};
      EmitUnless(!reports, cur.row);
    }

    method DropOrphan()
      requires Valid() && cur != null
      modifies this`items, this`log, cur
      ensures Valid() && View() == UploadQueue.DropOrphan(old(View())) && cur == old(cur)
    {
      if !IsSuperseded() {
        DropCurrent(FOLDER_CHANGED);
      }
    }

    method Snapshot() returns (src: Source)
      requires Valid() && cur != null
      modifies this`phase
      ensures Valid() && View() == UploadQueue.Snapshot(old(View())) && phase == Opening(src)
    {
      src := Source(cur.row.root, cur.row.dir, cur.row.base, cur.row.path, 0, 0);
      GoTo(Opening(src));
    }

    method SettleAs(r: Row)
      requires Valid() && cur != null && r.name == cur.row.name
      modifies this`log, this`cur, this`phase, cur
      ensures Valid() && View() == UploadQueue.SettleAs(old(View()), r)
    {
      SetCurrent(r);
      Emit(r);
      Release();
    }

    method SettleOrphan(r: Row)
      requires Valid() && cur != null && r.name == cur.row.name
      modifies this`items, this`log, this`cur, this`phase, cur
      ensures Valid()
      ensures View() == UploadQueue.Release(UploadQueue.DropOrphan(UploadQueue.SetCurrent(old(View()), r)))
    {
      SetCurrent(r);
      DropOrphan();
      Release();
    }

    method SettleVanished(r: Row)
      requires Valid() && cur != null && r.name == cur.row.name
      modifies this`items, this`log, this`cur, this`phase, cur
      ensures Valid()
      ensures View() ==
              UploadQueue.Release(UploadQueue.DropCurrent(UploadQueue.SetCurrent(old(View()), r), VanishedMessage(r)))
    {
      SetCurrent(r);
      DropCurrent(VanishedMessage(r));
      Release();
    }

    method PreflightFailed(c: Config, err: OpenError, now: int)
      requires Valid() && cur != null && c.backoff != []
      modifies this`items, this`log, this`cur, this`phase, cur
      ensures Valid() && View() == UploadQueue.PreflightFailed(c, old(View()), err, now)
    {
      var refreshed := cur.row.resendAfter;
      var r := cur.row.(sending := false, resendAfter := false);
      if r.orphaned {
        SettleOrphan(r);
      } else if err.BadTarget? {
        SettleAs(r.(state := TransferState.Rejected, message := err.reason, nextAttempt := None));
      } else if err.NotExist? && !refreshed {
        SettleVanished(r);
      } else {
        SettleAs(r.(state := Pending, message := WAITING_TO_SEND, nextAttempt := Some(now + c.backoff[0])));
      }
    }

    method MarkSending(src: Source)
      requires Valid() && cur != null && phase == Opened(src)
      modifies this`log, this`phase, cur
      ensures Valid() && View() == UploadQueue.MarkSending(old(View()))
    {
      var r := cur.row.(size := src.size, state := Sending, message := SENDING);
      SetCurrent(r);
      Emit(r);
      GoTo(Uploading(src));
    }

    method FinishFirst(src: Source, result: UploadResult) returns (resend: bool)
      requires Valid() && cur != null && phase == Uploaded(src, result)
      modifies this`phase, cur
      ensures Valid() && View() == UploadQueue.FinishFirst(old(View())) && phase == Settling(src, result, resend)
    {
      resend := cur.row.resendAfter;
      SetCurrent(cur.row.(resendAfter := false));
      GoTo(Settling(src, result, resend));
    }

    method RecordFailure(c: Config, src: Source, result: UploadResult, resend: bool, now: int)
      requires Valid() && cur != null && c.backoff != []
      requires phase == Settling(src, result, resend) && !result.Succeeded?
      modifies this`log, this`phase, cur
      ensures Valid() && View() == UploadQueue.RecordFailure(c, old(View()), now)
    {
      var r := FailedRow(c, cur.row, result, now);
      SetCurrent(r);
      EmitUnless(IsSuperseded(), r);
      GoTo(Recorded(false, resend));
    }

    method SetTerminal(state: TransferState, message: string, resend: bool)
      requires Valid() && cur != null
      modifies this`log, this`phase, cur
      ensures Valid() && View() == UploadQueue.SetTerminal(old(View()), state, message, resend)
    {
      var r := cur.row.(state := state, message := message);
      SetCurrent(r);
      EmitUnless(IsSuperseded(), r);
      GoTo(Recorded(true, resend));
    }

    method ArchiveCheck(src: Source) returns (stop: bool)
      requires Valid() && cur != null && phase == Archiving(src)
      modifies this`phase
      ensures Valid() && View() == UploadQueue.ArchiveCheck(old(View()))
      ensures stop <==> phase.Settled?
    {
      stop := cur.row.manual || cur.row.resendAfter;
      GoTo(if stop then Settled(Sent, FILE_SENT) else Moving(src));
    }

    method FinishLast(ok: bool, resendDue: bool)
      requires Valid() && cur != null && phase == Recorded(ok, resendDue)
      modifies this`items, this`log, this`cur, this`phase, cur
      ensures Valid() && View() == UploadQueue.FinishLast(old(View()))
    {
      var resend := resendDue || cur.row.resendAfter;
      var r := cur.row.(resendAfter := false, sending := false);
      if resend && ok && !r.orphaned {
        SettleAs(Rearm(r));
      } else {
        SetCurrent(r);
        if r.orphaned {
          DropOrphan();
        }
        Release();
      }
    }
  }
}
