// startUpload as a loop over what its turns observe (internal/masso/upload.go).
module StartLoop {
  import opened Bytes
  import opened Controller
  import opened UploadClient

  // Where the loop has got to, and when it has sent the request so far.
  datatype Progress = Progress(turn: StartTurn, sends: seq<int>)

  // The first request has just been sent.
  function Opening(u: Upload, first: int): Progress {
    Progress(Again(Starting(0, first + u.startRetransmit, first + u.startTimeout), true), [first])
  }

  // The loop as a function of its observations; once over it stays over.
  function After(u: Upload, first: int, env: seq<StartObs>): Progress
    decreases |env|
  {
    if env == [] then Opening(u, first)
    else
      var p := After(u, first, env[..|env| - 1]);
      var o := env[|env| - 1];
      if !p.turn.Again? then p
      else
        var t := TurnStart(u, p.turn.s, o);
        Progress(t, if t.Again? && t.resent then p.sends + [o.now] else p.sends)
  }

  // The schedule: sends are at least StartRetransmit apart and all precede the
  // deadline, so their number is bounded whatever the delays.
  ghost predicate Scheduled(u: Upload, first: int, sends: seq<int>) {
    && |sends| >= 1 && sends[0] == first
    && (forall i :: 0 <= i < |sends| ==> first <= sends[i] < first + u.startTimeout)
    && (forall i :: 0 < i < |sends| ==> sends[i] >= sends[i - 1] + u.startRetransmit)
  }

  // The schedule so far, and the loop's variables when it has not ended.
  ghost predicate OnSchedule(u: Upload, first: int, p: Progress) {
    && Scheduled(u, first, p.sends)
    && (p.turn.Again? ==>
          && p.turn.s.resends == |p.sends| - 1
          && p.turn.s.giveUp == first + u.startTimeout
          && p.turn.s.nextResend == p.sends[|p.sends| - 1] + u.startRetransmit)
  }

  lemma OneSendMore(u: Upload, first: int, sends: seq<int>, now: int)
    requires Scheduled(u, first, sends) && 0 < u.startRetransmit
    requires sends[|sends| - 1] + u.startRetransmit <= now < first + u.startTimeout
    ensures Scheduled(u, first, sends + [now])
  {
    var t := sends + [now];
    forall i | 0 < i < |t| ensures t[i] >= t[i - 1] + u.startRetransmit {
      if i < |sends| { assert sends[i] >= sends[i - 1] + u.startRetransmit; }
    }
  }

  lemma TurnOnSchedule(u: Upload, first: int, p: Progress, o: StartObs)
    requires OnSchedule(u, first, p) && p.turn.Again? && 0 < u.startRetransmit
    ensures var t := TurnStart(u, p.turn.s, o);
            OnSchedule(u, first, Progress(t, if t.Again? && t.resent then p.sends + [o.now] else p.sends))
  {
    if p.turn.s.nextResend <= o.now < p.turn.s.giveUp {
      OneSendMore(u, first, p.sends, o.now);
    }
  }

  lemma {:induction false} ScheduleHolds(u: Upload, first: int, env: seq<StartObs>)
    requires u.Valid()
    ensures OnSchedule(u, first, After(u, first, env))
    decreases |env|
  {
    if env != [] {
      var p := After(u, first, env[..|env| - 1]);
      ScheduleHolds(u, first, env[..|env| - 1]);
      if p.turn.Again? { TurnOnSchedule(u, first, p, env[|env| - 1]); }
    }
  }

  lemma {:induction false} SendsSpread(u: Upload, first: int, sends: seq<int>, i: nat)
    requires u.Valid() && Scheduled(u, first, sends) && i < |sends|
    ensures sends[i] >= first + i * u.startRetransmit
    decreases i
  {
    if i > 0 {
      SendsSpread(u, first, sends, i - 1);
      assert i * u.startRetransmit == (i - 1) * u.startRetransmit + u.startRetransmit;
    }
  }

  lemma CeilingBound(n: int, every: int, limit: int)
    requires every > 0 && n * every < limit
    ensures n + 1 <= (limit + every - 1) / every
  {
    var q := (limit + every - 1) / every;
    assert q * every > limit - 1;
    SmallerFactor(n, q, every);
  }

  lemma SmallerFactor(a: int, b: int, k: int)
    requires k > 0 && a * k < b * k
    ensures a < b
  {
  }

  // At most ceil(StartTimeout / StartRetransmit) requests are ever sent.
  lemma NeverBursts(u: Upload, first: int, env: seq<StartObs>)
    requires u.Valid()
    ensures |After(u, first, env).sends| <= (u.startTimeout + u.startRetransmit - 1) / u.startRetransmit
  {
    var sends := After(u, first, env).sends;
    ScheduleHolds(u, first, env);
    SendsSpread(u, first, sends, |sends| - 1);
    CeilingBound(|sends| - 1, u.startRetransmit, u.startTimeout);
  }

  // What made the loop succeed: an OK answer, or an already-started answer read
  // after at least one resend.
  lemma {:induction false} WhyStarted(u: Upload, first: int, env: seq<StartObs>)
    requires u.Valid()
    ensures After(u, first, env).turn.Started? <==>
              exists k :: 0 <= k < |env| && Accepts(u, first, env, k)
    decreases |env|
  {
    if env != [] {
      var shorter := env[..|env| - 1];
      WhyStarted(u, first, shorter);
      var p := After(u, first, shorter);
      if p.turn.Started? {
        var k :| 0 <= k < |shorter| && Accepts(u, first, shorter, k);
        assert shorter[..k] == env[..k];
        assert Accepts(u, first, env, k);
      } else if After(u, first, env).turn.Started? {
        ScheduleHolds(u, first, shorter);
        assert Accepts(u, first, env, |env| - 1);
      } else if k :| 0 <= k < |env| && Accepts(u, first, env, k) {
        ScheduleHolds(u, first, env[..k]);
        if k < |env| - 1 {
          assert shorter[..k] == env[..k];
          assert Accepts(u, first, shorter, k);
        }
      }
    }
  }

  // What the answer means, by its result byte.
  function Means(result: byte, resent: bool, at: int): StartTurn {
    match result
    case 0x00 => Started(at)
    case 0xE9 => StartFailed(NoUSB)
    case 0xF7 => if resent then Started(at) else StartFailed(TransferOpen)
    case _ => StartFailed(TransferFailed)
  }

  lemma JudgedByByte(result: byte, resends: nat, at: int)
    ensures JudgeStart(result, resends, at) == Means(result, resends > 0, at)
  {
  }

  // What one more turn does, told by when the request has been sent so far: the
  // deadline first, then an answer that has come, then a resend that is due, then
  // a cancellation.
  ghost predicate TurnsTo(u: Upload, first: int, sends: seq<int>, o: StartObs, turn: StartTurn, more: seq<int>)
    requires sends != []
  {
    if o.now >= first + u.startTimeout then turn == StartFailed(NoResponse) && more == sends
    else if o.event.Answer? then turn == Means(o.event.result, |sends| >= 2, o.after) && more == sends
    else if o.now >= sends[|sends| - 1] + u.startRetransmit then turn.Again? && more == sends + [o.now]
    else if o.event.Cancellation? then turn == StartFailed(ContextDone) && more == sends
    else turn.Again? && more == sends
  }

  lemma ProgressTurns(u: Upload, first: int, p: Progress, o: StartObs)
    requires OnSchedule(u, first, p) && p.turn.Again?
    ensures var t := TurnStart(u, p.turn.s, o);
            TurnsTo(u, first, p.sends, o, t, if t.Again? && t.resent then p.sends + [o.now] else p.sends)
  {
    if o.event.Answer? { JudgedByByte(o.event.result, p.turn.s.resends, o.after); }
  }

  lemma AfterOneMore(u: Upload, first: int, env: seq<StartObs>, o: StartObs, p: Progress)
    requires p == After(u, first, env) && p.turn.Again?
    ensures var t := TurnStart(u, p.turn.s, o);
            After(u, first, env + [o]) == Progress(t, if t.Again? && t.resent then p.sends + [o.now] else p.sends)
  {
    assert (env + [o])[..|env + [o]| - 1] == env;
  }

  // So the loop resends whenever it is due, and each way of ending has its own
  // cause.
  lemma TurnExact(u: Upload, first: int, env: seq<StartObs>, o: StartObs, p: Progress, t: Progress)
    requires u.Valid() && p == After(u, first, env) && p.turn.Again? && t == After(u, first, env + [o])
    ensures p.sends != [] && TurnsTo(u, first, p.sends, o, t.turn, t.sends)
  {
    ScheduleHolds(u, first, env);
    ProgressTurns(u, first, p, o);
    AfterOneMore(u, first, env, o, p);
  }

  // Turn k reads an answer, before the deadline, that counts as started.
  ghost predicate Accepts(u: Upload, first: int, env: seq<StartObs>, k: nat)
    requires k < |env|
  {
    var p := After(u, first, env[..k]);
    && p.turn.Again? && env[k].now < first + u.startTimeout && env[k].event.Answer?
    && (env[k].event.result == START_OK || (env[k].event.result == START_ALREADY_STARTED && |p.sends| >= 2))
  }

  // startUpload itself, on its local variables.
  method StartUpload(u: Upload, first: int, env: seq<StartObs>) returns (turn: StartTurn, sends: seq<int>)
    requires u.Valid()
    ensures Progress(turn, sends) == After(u, first, env)
    ensures Scheduled(u, first, sends)
    ensures |sends| <= (u.startTimeout + u.startRetransmit - 1) / u.startRetransmit
    ensures turn.Started? ==> exists k :: 0 <= k < |env| && Accepts(u, first, env, k)
  {
    sends := [first];
    var giveUp := first + u.startTimeout;
    var resends: nat := 0;
    var nextResend := first + u.startRetransmit;
    turn := Again(Starting(resends, nextResend, giveUp), true);
    var i := 0;
    while i < |env| && turn.Again?
      invariant 0 <= i <= |env|
      invariant turn.Again? ==> turn.s == Starting(resends, nextResend, giveUp)
      invariant giveUp == first + u.startTimeout
      invariant Progress(turn, sends) == After(u, first, env[..i])
    {
      assert env[..i + 1][..|env[..i + 1]| - 1] == env[..i];
      var o := env[i];
      if o.now >= giveUp {
        turn := StartFailed(NoResponse);
      } else if o.now >= nextResend {
        if o.event.Answer? {
          turn := JudgeStart(o.event.result, resends, o.after);
        } else {
          sends := sends + [o.now];
          resends := resends + 1;
          nextResend := o.now + u.startRetransmit;
          turn := Again(Starting(resends, nextResend, giveUp), true);
        }
      } else if o.event.Cancellation? {
        turn := StartFailed(ContextDone);
      } else if o.event.Answer? {
        turn := JudgeStart(o.event.result, resends, o.after);
      } else {
        turn := Again(Starting(resends, nextResend, giveUp), false);
      }
      i := i + 1;
    }
    Settled(u, first, env, i);
    ScheduleHolds(u, first, env);
    NeverBursts(u, first, env);
    WhyStarted(u, first, env);
  }

  // A loop that is over ignores further observations.
  lemma {:induction false} Settled(u: Upload, first: int, env: seq<StartObs>, i: nat)
    requires i <= |env| && (i < |env| ==> !After(u, first, env[..i]).turn.Again?)
    ensures After(u, first, env) == After(u, first, env[..i])
    decreases |env| - i
  {
    if i == |env| {
      assert env[..i] == env;
    } else {
      assert env[..i + 1][..|env[..i + 1]| - 1] == env[..i];
      Settled(u, first, env, i + 1);
    }
  }
}
