// The machine gate (internal/engine/gate.go): a few fields and one timer that
// must agree with a plain reading of everything that has happened.
module Gate {
  import opened Bytes

  datatype Status = Status(running: bool, waitingForOperator: bool, progress: int)
  {
    predicate Busy() { running || waitingForOperator }

    predicate AtRest() { progress == 0 || progress == 100 }
  }

  datatype Sighting = Sighting(at: int, status: Status)

  datatype Event = Connect | Disconnect | SetOverride(on: bool) | Report(sighting: Sighting)

  // The reasons, by the source's wording; Blank is the empty string.
  datatype Reason = Blank | NotConnected | WaitingForOperator | Machining | MachineJustStopped | JobPaused

  datatype Verdict = Verdict(open: bool, reason: Reason)

  datatype Rules = Rules(idleHold: int, pauseGrace: int, override: bool) // override: its initial setting

  const OPEN := Verdict(true, Reason.Blank)
  const NOT_CONNECTED := Verdict(false, Reason.NotConnected)
  const WAITING := Verdict(false, Reason.WaitingForOperator)
  const MACHINING := Verdict(false, Reason.Machining)
  const JUST_STOPPED := Verdict(false, MachineJustStopped)
  const BLANK := Verdict(false, Reason.Blank)
  const PAUSED := Verdict(false, JobPaused)

  // --- What the history says -------------------------------------------------------

  predicate Reachable(h: seq<Event>) {
    h != [] &&
    match h[|h| - 1]
    case Connect => true
    case Disconnect => false
    case _ => Reachable(h[..|h| - 1])
  }

  predicate Overridden(rules: Rules, h: seq<Event>) {
    if h == [] then rules.override
    else match h[|h| - 1]
      case SetOverride(on) => on
      case _ => Overridden(rules, h[..|h| - 1])
  }

  // The statuses since the last disconnect, oldest first.
  function Seen(h: seq<Event>): seq<Sighting> {
    if h == [] then []
    else match h[|h| - 1]
      case Disconnect => []
      case Report(s) => Seen(h[..|h| - 1]) + [s]
      case _ => Seen(h[..|h| - 1])
  }

  // An idle run starting at k goes on to the end, and nothing idle precedes it.
  predicate IdleRun(seen: seq<Sighting>, k: nat) {
    && k < |seen|
    && (forall i :: k <= i < |seen| ==> !seen[i].status.Busy())
    && (k > 0 ==> seen[k - 1].status.Busy())
  }

  // The run began with a job under way, and none of it has shown the job over.
  predicate PausedRun(seen: seq<Sighting>, k: nat)
    requires k < |seen|
  {
    && 0 < seen[k].status.progress < 100
    && forall i :: k < i < |seen| ==> !seen[i].status.AtRest()
  }

  function OpensAt(rules: Rules, seen: seq<Sighting>, k: nat): int
    requires k < |seen|
  {
    var idle := seen[k].at + rules.idleHold;
    if PausedRun(seen, k) && seen[k].at + rules.pauseGrace > idle then seen[k].at + rules.pauseGrace else idle
  }

  // Where the machine's last run of idle statuses began, or the end.
  function RunStart(seen: seq<Sighting>): (k: nat)
    ensures k <= |seen| && (k < |seen| ==> IdleRun(seen, k))
    ensures k == |seen| ==> seen == [] || seen[|seen| - 1].status.Busy()
  {
    if seen == [] || seen[|seen| - 1].status.Busy() then |seen| else RunStart(seen[..|seen| - 1])
  }

  function VerdictOf(rules: Rules, h: seq<Event>, now: int): Verdict {
    var seen := Seen(h);
    var k := RunStart(seen);
    if !Reachable(h) then NOT_CONNECTED
    else if Overridden(rules, h) then OPEN
    else if k == |seen| then
      (if seen != [] && seen[k - 1].status.waitingForOperator then WAITING else MACHINING)
    else if now < seen[k].at + rules.idleHold then JUST_STOPPED
    else if PausedRun(seen, k) && now < seen[k].at + rules.pauseGrace then PAUSED
    else OPEN
  }

  // The rule of the package documentation: connected, and either overridden or
  // in an idle run that is IdleHold old and, if it began with the job stopped
  // part-way and nothing since has shown the job over, PauseGrace old.
  ghost predicate MayStart(rules: Rules, h: seq<Event>, now: int) {
    Reachable(h) &&
    (Overridden(rules, h) || exists k: nat :: RunOldEnough(rules, Seen(h), k, now))
  }

  ghost predicate RunOldEnough(rules: Rules, seen: seq<Sighting>, k: nat, now: int) {
    IdleRun(seen, k) && now - seen[k].at >= rules.idleHold && (PausedRun(seen, k) ==> now - seen[k].at >= rules.pauseGrace)
  }

  lemma RunUnique(seen: seq<Sighting>, j: nat, k: nat)
    requires IdleRun(seen, j) && IdleRun(seen, k)
    ensures j == k
  {
    if k > 0 { assert seen[k - 1].status.Busy(); }
    if j > 0 { assert seen[j - 1].status.Busy(); }
  }

  lemma NoRun(seen: seq<Sighting>, j: nat)
    requires seen == [] || seen[|seen| - 1].status.Busy()
    ensures !IdleRun(seen, j)
  {
  }

  lemma OpenIffMayStart(rules: Rules, h: seq<Event>, now: int)
    ensures VerdictOf(rules, h, now).open <==> MayStart(rules, h, now)
  {
    var seen := Seen(h);
    var k := RunStart(seen);
    if k < |seen| {
      forall j: nat | IdleRun(seen, j) ensures j == k { RunUnique(seen, j, k); }
      assert RunOldEnough(rules, seen, k, now) <==> now >= OpensAt(rules, seen, k);
    } else {
      forall j: nat ensures !IdleRun(seen, j) { NoRun(seen, j); }
    }
  }

  // When, with no further event, the gate is open.
  datatype Outlook = Always | Never | From(instant: int)

  function OutlookOf(rules: Rules, h: seq<Event>): Outlook {
    var seen := Seen(h);
    var k := RunStart(seen);
    if !Reachable(h) then Never
    else if Overridden(rules, h) then Always
    else if k == |seen| then Never
    else From(OpensAt(rules, seen, k))
  }

  // It opens by itself at one instant at most, and stays open from then on.
  lemma OpensOnce(rules: Rules, h: seq<Event>, now: int)
    ensures VerdictOf(rules, h, now).open <==>
            (match OutlookOf(rules, h) case Always => true case Never => false case From(t) => now >= t)
  {
  }

  // --- The reasons -------------------------------------------------------------------

  // The last connection event is a Connect.
  lemma {:induction false} ReachableExact(h: seq<Event>)
    ensures Reachable(h) <==>
            exists i :: 0 <= i < |h| && h[i] == Connect && forall j :: i < j < |h| ==> h[j] != Disconnect
    decreases |h|
  {
    if h != [] {
      var init, n := h[..|h| - 1], |h| - 1;
      ReachableExact(init);
      assert forall i :: 0 <= i < n ==> init[i] == h[i];
      if i :| 0 <= i < |init| && init[i] == Connect && forall j :: i < j < |init| ==> init[j] != Disconnect {
        if h[n] != Disconnect { assert h[i] == Connect && forall j :: i < j < |h| ==> h[j] != Disconnect; }
      }
    }
  }

  // The last setting of the override, or its initial one.
  lemma {:induction false} OverriddenExact(rules: Rules, h: seq<Event>)
    ensures forall i :: 0 <= i < |h| && h[i].SetOverride? && (forall j :: i < j < |h| ==> !h[j].SetOverride?) ==>
              (Overridden(rules, h) <==> h[i].on)
    ensures (forall i :: 0 <= i < |h| ==> !h[i].SetOverride?) ==> (Overridden(rules, h) <==> rules.override)
    decreases |h|
  {
    if h != [] {
      var init := h[..|h| - 1];
      OverriddenExact(rules, init);
      assert forall i :: 0 <= i < |init| ==> init[i] == h[i];
    }
  }

  // The statuses reported since the last disconnect, in order.
  lemma {:induction false} SeenExact(h: seq<Event>)
    ensures |Seen(h)| <= |h| && (h != [] && h[|h| - 1] == Disconnect ==> Seen(h) == [])
    ensures forall s: Sighting :: s in Seen(h) <==>
              exists i :: 0 <= i < |h| && h[i] == Report(s) && forall j :: i < j < |h| ==> h[j] != Disconnect
    decreases |h|
  {
    if h != [] {
      var init, n := h[..|h| - 1], |h| - 1;
      SeenExact(init);
      assert forall i :: 0 <= i < n ==> init[i] == h[i];
      forall s: Sighting
        ensures s in Seen(h) <==>
                exists i :: 0 <= i < |h| && h[i] == Report(s) && forall j :: i < j < |h| ==> h[j] != Disconnect
      {
        if i :| 0 <= i < |init| && init[i] == Report(s) && forall j :: i < j < |init| ==> init[j] != Disconnect {
          if h[n] != Disconnect { assert h[i] == Report(s) && forall j :: i < j < |h| ==> h[j] != Disconnect; }
        }
      }
    }
  }

  // Why the gate is closed, told by the last status and by the idle run that goes
  // on, if there is one.
  lemma ReasonExact(rules: Rules, h: seq<Event>, now: int)
    ensures var v, seen := VerdictOf(rules, h, now), Seen(h);
            && (v.reason == NotConnected <==> !Reachable(h))
            && (v.open <==> v.reason == Reason.Blank)
            && (v.reason == WaitingForOperator <==>
                  Reachable(h) && !Overridden(rules, h) && seen != [] && seen[|seen| - 1].status.waitingForOperator)
            && (v.reason == Machining <==>
                  Reachable(h) && !Overridden(rules, h) &&
                  (seen == [] || (seen[|seen| - 1].status.running && !seen[|seen| - 1].status.waitingForOperator)))
            && (v.reason == MachineJustStopped <==>
                  Reachable(h) && !Overridden(rules, h) && exists k: nat :: JustStopped(rules, seen, k, now))
            && (v.reason == JobPaused <==>
                  Reachable(h) && !Overridden(rules, h) && exists k: nat :: StillPaused(rules, seen, k, now))
  {
    var seen := Seen(h);
    var k := RunStart(seen);
    if k < |seen| {
      forall j: nat | IdleRun(seen, j) ensures j == k { RunUnique(seen, j, k); }
      assert JustStopped(rules, seen, k, now) <==> now < seen[k].at + rules.idleHold;
      assert StillPaused(rules, seen, k, now) <==>
             now >= seen[k].at + rules.idleHold && PausedRun(seen, k) && now < seen[k].at + rules.pauseGrace;
    } else {
      forall j: nat ensures !IdleRun(seen, j) { NoRun(seen, j); }
    }
  }

  // Idle since k, but not for long enough.
  ghost predicate JustStopped(rules: Rules, seen: seq<Sighting>, k: nat, now: int) {
    IdleRun(seen, k) && now - seen[k].at < rules.idleHold
  }

  // Idle for long enough, but a job seems to be paused.
  ghost predicate StillPaused(rules: Rules, seen: seq<Sighting>, k: nat, now: int) {
    && IdleRun(seen, k) && rules.idleHold <= now - seen[k].at < rules.pauseGrace
    && 0 < seen[k].status.progress < 100
    && forall i :: k < i < |seen| ==> seen[i].status.progress != 0 && seen[i].status.progress != 100
  }

  // One event more.
  lemma Extended(rules: Rules, h: seq<Event>, e: Event)
    ensures Reachable(h + [e]) == if e.Connect? then true else if e.Disconnect? then false else Reachable(h)
    ensures Overridden(rules, h + [e]) == if e.SetOverride? then e.on else Overridden(rules, h)
    ensures Seen(h + [e]) == if e.Disconnect? then [] else if e.Report? then Seen(h) + [e.sighting] else Seen(h)
  {
    assert (h + [e])[..|h + [e]| - 1] == h;
  }

  // One status more: a busy one ends the run, an idle one starts or prolongs it.
  lemma RunExtended(seen: seq<Sighting>, s: Sighting)
    ensures RunStart(seen + [s]) == if s.status.Busy() then |seen| + 1 else RunStart(seen)
  {
    var t := seen + [s];
    assert t[..|t| - 1] == seen && t[|t| - 1] == s;
  }

  lemma PauseExtended(seen: seq<Sighting>, k: nat, s: Sighting)
    requires k < |seen|
    ensures PausedRun(seen + [s], k) <==> PausedRun(seen, k) && !s.status.AtRest()
  {
    var t := seen + [s];
    assert t[k] == seen[k] && t[|seen|] == s;
    forall i | k < i < |seen| ensures t[i] == seen[i] {}
    if PausedRun(t, k) {
      forall i | k < i < |seen| ensures !seen[i].status.AtRest() { assert !t[i].status.AtRest(); }
    }
  }

  // What the gate remembers of the machine, and what it stands for.
  datatype Memory = Memory(haveStatus: bool, status: Status, busy: bool, idleSince: int, pausedAt: Option<int>)

  ghost predicate Recalls(m: Memory, seen: seq<Sighting>) {
    && m.haveStatus == (seen != [])
    && m.busy == (seen != [] && RunStart(seen) == |seen|)
    && (m.haveStatus ==> m.status == seen[|seen| - 1].status)
    && (m.haveStatus && !m.busy ==>
          && m.idleSince == seen[RunStart(seen)].at
          && m.pausedAt == if PausedRun(seen, RunStart(seen)) then Some(m.idleSince) else None)
  }

  // The switch of updateStatus.
  function Folded(m: Memory, s: Sighting): Memory {
    if s.status.Busy() then Memory(true, s.status, true, m.idleSince, None)
    else if m.busy || !m.haveStatus then
      Memory(true, s.status, false, s.at, if 0 < s.status.progress < 100 then Some(s.at) else None)
    else m.(status := s.status, pausedAt := if s.status.AtRest() then None else m.pausedAt)
  }

  lemma FoldedRecalls(m: Memory, seen: seq<Sighting>, s: Sighting)
    requires Recalls(m, seen)
    ensures Recalls(Folded(m, s), seen + [s])
  {
    RunExtended(seen, s);
    if RunStart(seen) < |seen| {
      PauseExtended(seen, RunStart(seen), s);
    }
  }

  // --- The gate --------------------------------------------------------------------

  class Gate {
    const rules: Rules
    var isConnected: bool
    var uploadWhileMachining: bool
    var haveStatus: bool
    var status: Status
    var busy: bool
    var idleSince: int
    var pausedAt: Option<int>
    var timer: Option<int>      // the instant it is armed for
    var ready: bool             // a wake-up token is waiting
    var lastSignaled: Verdict
    ghost var history: seq<Event>
    ghost var last: int         // when the last step was
    ghost var taken: Verdict    // the verdict signaled when the scheduler last took a token

    // The fields agree with the history.
    ghost predicate Agrees()
      reads this
    {
      && isConnected == Reachable(history)
      && uploadWhileMachining == Overridden(rules, history)
      && Recalls(Memory(haveStatus, status, busy, idleSince, pausedAt), Seen(history))
    }

    // The timer is armed for the instant the gate opens by itself, if it is
    // closed and will; no change of verdict goes unannounced.
    ghost predicate Alert()
      reads this
    {
      && (lastSignaled == VerdictOf(rules, history, last) || (history == [] && lastSignaled == BLANK))
      && (!lastSignaled.open ==>
            timer == match OutlookOf(rules, history) case From(t) => Some(t) case _ => None)
      && (lastSignaled.open ==> timer == None)
      && (ready || lastSignaled == taken)
    }

    ghost predicate Valid()
      reads this
    {
      Agrees() && Alert()
    }

    function Evaluate(now: int): (v: Verdict)
      requires Agrees()
      reads this
      ensures v == VerdictOf(rules, history, now)
    {
      if !isConnected then NOT_CONNECTED
      else if uploadWhileMachining then OPEN
      else if !haveStatus || busy then
        (if haveStatus && status.waitingForOperator then WAITING else MACHINING)
      else if now - idleSince < rules.idleHold then JUST_STOPPED
      else if pausedAt.Some? && now - pausedAt.value < rules.pauseGrace then PAUSED
      else OPEN
    }

    method SignalReady(v: Verdict)
      requires ready || lastSignaled == taken
      modifies this`ready, this`lastSignaled
      ensures lastSignaled == v
      ensures ready <==> old(ready) || v != old(lastSignaled)
    {
      if v != lastSignaled {
        lastSignaled := v;
        ready := true;
      }
    }

    // The end of every step.
    method Reschedule(now: int) returns (v: Verdict)
      requires Agrees() && (ready || lastSignaled == taken)
      modifies this`ready, this`lastSignaled, this`timer, this`last
      ensures Valid() && last == now && v == VerdictOf(rules, history, now)
      ensures ready <==> old(ready) || v != old(lastSignaled)
    {
      v := Evaluate(now);
      SignalReady(v);
      last := now;
      timer := None;
      if v.open || !isConnected || uploadWhileMachining || !haveStatus || busy {
        return;
      }
      var next := idleSince + rules.idleHold;
      if pausedAt.Some? && pausedAt.value + rules.pauseGrace > next {
        next := pausedAt.value + rules.pauseGrace;
      }
      if next > now {
        timer := Some(next);
      }
    }

    // A new gate: no timer, no token, and nothing signaled but the blank verdict.
    constructor (rules: Rules, now: int)
      ensures Valid() && this.rules == rules && history == [] && last == now
      ensures !ready && timer == None && lastSignaled == taken == BLANK
    {
      this.rules := rules;
      isConnected, uploadWhileMachining, haveStatus, busy := false, rules.override, false, false;
      status, idleSince, pausedAt, timer, ready := Status(false, false, 0), 0, None, None, false;
      lastSignaled, taken := BLANK, BLANK;
      history, last := [], now;
    }

    // The machine can be reached.
    method Connected(now: int) returns (v: Verdict)
      requires Valid() && now >= last
      modifies this
      ensures Valid() && history == old(history) + [Connect] && last == now
      ensures v == VerdictOf(rules, history, now) && taken == old(taken)
      ensures ready <==> old(ready) || v != old(lastSignaled)
    {
      Extended(rules, history, Connect);
      isConnected := true;
      history := history + [Connect];
      v := Reschedule(now);
    }

    // The machine cannot be reached, and what it last said no longer counts.
    method Disconnected(now: int) returns (v: Verdict)
      requires Valid() && now >= last
      modifies this
      ensures Valid() && history == old(history) + [Disconnect] && last == now
      ensures v == VerdictOf(rules, history, now) && taken == old(taken)
      ensures ready <==> old(ready) || v != old(lastSignaled)
    {
      Extended(rules, history, Disconnect);
      isConnected, haveStatus, busy, pausedAt := false, false, false, None;
      history := history + [Disconnect];
      v := Reschedule(now);
    }

    // The operator's override.
    method SetUploadWhileMachining(on: bool, now: int) returns (v: Verdict)
      requires Valid() && now >= last
      modifies this
      ensures Valid() && history == old(history) + [SetOverride(on)] && last == now
      ensures v == VerdictOf(rules, history, now) && taken == old(taken)
      ensures ready <==> old(ready) || v != old(lastSignaled)
    {
      Extended(rules, history, SetOverride(on));
      uploadWhileMachining := on;
      history := history + [SetOverride(on)];
      v := Reschedule(now);
    }

    method Fold(s: Status, now: int)
      modifies this`busy, this`idleSince, this`pausedAt, this`status, this`haveStatus
      ensures Memory(haveStatus, status, busy, idleSince, pausedAt)
           == Folded(old(Memory(haveStatus, status, busy, idleSince, pausedAt)), Sighting(now, s))
    {
      if s.Busy() {
        busy, pausedAt := true, None;
      } else if busy || !haveStatus {
        busy, idleSince := false, now;
        pausedAt := if 0 < s.progress < 100 then Some(now) else None;
      } else if s.AtRest() {
        pausedAt := None;
      }
      status, haveStatus := s, true;
    }

    method Remember(s: Status, now: int)
      requires Agrees()
      modifies this`busy, this`idleSince, this`pausedAt, this`status, this`haveStatus, this`history
      ensures Agrees() && history == old(history) + [Report(Sighting(now, s))]
    {
      ghost var m := Memory(haveStatus, status, busy, idleSince, pausedAt);
      ghost var seen, sighting := Seen(history), Sighting(now, s);
      FoldedRecalls(m, seen, sighting);
      Extended(rules, history, Report(sighting));
      Fold(s, now);
      history := history + [Report(sighting)];
      assert Recalls(Memory(haveStatus, status, busy, idleSince, pausedAt), seen + [sighting]);
    }

    // A status reply.
    method UpdateStatus(s: Status, now: int) returns (v: Verdict)
      requires Valid() && now >= last
      modifies this
      ensures Valid() && history == old(history) + [Report(Sighting(now, s))] && last == now
      ensures v == VerdictOf(rules, history, now) && taken == old(taken)
      ensures ready <==> old(ready) || v != old(lastSignaled)
    {
      Remember(s, now);
      v := Reschedule(now);
    }

    // The timer expires: the gate is open, and the scheduler has been told.
    method TimerFired(now: int) returns (v: Verdict)
      requires Valid() && now >= last && timer.Some? && now >= timer.value
      modifies this
      ensures Valid() && history == old(history) && last == now
      ensures v == VerdictOf(rules, history, now) && v.open && ready
    {
      OpensOnce(rules, history, now);
      v := Reschedule(now);
    }

    // The scheduler takes the token, and looks.
    method TakeToken()
      requires Valid() && ready
      modifies this`ready, this`taken
      ensures Valid() && !ready && taken == lastSignaled
    {
      ready, taken := false, lastSignaled;
    }

    // Between two steps the gate opens by itself exactly when the timer says.
    lemma NoMissedOpening(t: int)
      requires Valid() && t >= last
      ensures VerdictOf(rules, history, t).open <==> lastSignaled.open || (timer.Some? && timer.value <= t)
    {
      OpensOnce(rules, history, t);
      OpensOnce(rules, history, last);
    }
  }
}
