// One file's bookkeeping in the watcher (internal/watch/watch.go: updateEntry,
// settle and the checks of scanDir between them), against everything that has
// been observed of the file since it appeared.
module Settling {
  import opened Bytes

  datatype Content = Content(size: int, modTime: int)

  datatype Entry = Entry(
    content: Content, stableSince: int, stableScans: nat,
    emitted: Option<Content>, rejected: Option<Content>)

  const ZERO_TIME := 0 // the zero time.Time
  const ZERO := Content(0, ZERO_TIME)
  const NEW_ENTRY := Entry(ZERO, ZERO_TIME, 0, None, None)

  datatype Observation = Observation(at: int, content: Content)

  datatype Outcome = Quiet | Ready(content: Content, changed: bool) | Refused(content: Content)

  // What has been observed of a file, and which contents were reported as ready
  // and as rejected, oldest first.
  datatype Past = Past(seen: seq<Observation>, ready: seq<Content>, refused: seq<Content>)

  const UNSEEN := Past([], [], [])

  // --- The code ---------------------------------------------------------------------

  function Refresh(e: Entry, content: Content, now: int): Entry {
    if e.content != content then e.(content := content, stableSince := now, stableScans := 1)
    else e.(stableScans := e.stableScans + 1)
  }

  predicate Unreported(e: Entry) {
    e.emitted != Some(e.content) && e.rejected != Some(e.content)
  }

  predicate HeldLongEnough(e: Entry, now: int, settle: int) {
    e.stableScans >= 2 && now - e.stableSince >= settle
  }

  // A candidate observed with this content: valid is Validate's answer, busy
  // Probe's.
  function Observe(e: Entry, content: Content, now: int, settle: int, valid: bool, busy: bool): (r: (Entry, Outcome)) {
    var e1 := Refresh(e, content, now);
    if !Unreported(e1) || !HeldLongEnough(e1, now, settle) then (e1, Quiet)
    else if !valid then (e1.(rejected := Some(content)), Refused(content))
    else if busy then (e1, Quiet)
    else (e1.(emitted := Some(content)), Ready(content, e1.emitted.Some?))
  }

  function Remember(p: Past, content: Content, now: int, out: Outcome): Past {
    Past(p.seen + [Observation(now, content)],
         if out.Ready? then p.ready + [content] else p.ready,
         if out.Refused? then p.refused + [content] else p.refused)
  }

  // --- What it means -----------------------------------------------------------------

  // At least two observations, spanning at least settle, all of the last content.
  ghost predicate Settled(seen: seq<Observation>, settle: int) {
    exists k :: 0 <= k < |seen| - 1 && HoldsFrom(seen, k) && seen[|seen| - 1].at - seen[k].at >= settle
  }

  predicate HoldsFrom(seen: seq<Observation>, k: nat) {
    k < |seen| && forall i :: k <= i < |seen| ==> seen[i].content == seen[|seen| - 1].content
  }

  predicate Ordered(seen: seq<Observation>) {
    forall i, j :: 0 <= i <= j < |seen| ==> seen[i].at <= seen[j].at
  }

  // Where the content observed last began to hold.
  function HeldFrom(seen: seq<Observation>): (k: nat)
    requires seen != []
    ensures HoldsFrom(seen, k)
    ensures forall j: nat :: HoldsFrom(seen, j) ==> k <= j
  {
    var n := |seen| - 1;
    if n == 0 || seen[n - 1].content != seen[n].content then n
    else
      var init := seen[..n];
      assert forall i :: 0 <= i < n ==> init[i] == seen[i];
      assert forall j: nat :: j < n && HoldsFrom(seen, j) ==> HoldsFrom(init, j);
      HeldFrom(init)
  }

  // An empty file with the zero time, from the very first: the entry it gets has
  // never seen anything else.
  predicate BornZero(seen: seq<Observation>) {
    HoldsFrom(seen, 0) && seen[0].content == ZERO
  }

  function LastOf(s: seq<Content>): Option<Content> {
    if s == [] then None else Some(s[|s| - 1])
  }

  predicate NoRepeat(s: seq<Content>) {
    forall i :: 0 < i < |s| ==> s[i - 1] != s[i]
  }

  // The entry is what the past makes of it.
  ghost predicate Tracks(e: Entry, p: Past) {
    && e.emitted == LastOf(p.ready) && e.rejected == LastOf(p.refused)
    && NoRepeat(p.ready) && NoRepeat(p.refused) && Ordered(p.seen)
    && if p.seen == [] then e == NEW_ENTRY.(emitted := e.emitted, rejected := e.rejected)
       else
         && e.content == p.seen[|p.seen| - 1].content
         && e.stableScans == |p.seen| - HeldFrom(p.seen)
         && e.stableSince == if BornZero(p.seen) then ZERO_TIME else p.seen[HeldFrom(p.seen)].at
  }

  lemma NewTracks()
    ensures Tracks(NEW_ENTRY, UNSEEN)
  {
  }

  // One observation more.
  lemma HeldFromStep(seen: seq<Observation>, o: Observation)
    requires seen != []
    ensures HeldFrom(seen + [o]) == if o.content == seen[|seen| - 1].content then HeldFrom(seen) else |seen|
  {
    assert (seen + [o])[..|seen|] == seen;
  }

  lemma BornZeroStep(seen: seq<Observation>, o: Observation)
    ensures BornZero(seen + [o]) <==> o.content == ZERO && (seen == [] || BornZero(seen))
  {
    var t := seen + [o];
    assert t[|seen|] == o;
    assert forall i :: 0 <= i < |seen| ==> t[i] == seen[i];
    if BornZero(t) && seen != [] {
      assert t[0].content == o.content && t[|seen| - 1].content == o.content;
      assert forall i :: 0 <= i < |seen| ==> seen[i].content == t[i].content;
    }
  }

  lemma RefreshTracks(e: Entry, p: Past, content: Content, now: int)
    requires Tracks(e, p) && (p.seen != [] ==> p.seen[|p.seen| - 1].at <= now)
    ensures Tracks(Refresh(e, content, now), p.(seen := p.seen + [Observation(now, content)]))
  {
    var o := Observation(now, content);
    BornZeroStep(p.seen, o);
    if p.seen != [] {
      HeldFromStep(p.seen, o);
    }
  }

  lemma EmittedTracks(e: Entry, p: Past)
    requires Tracks(e, p) && e.emitted != Some(e.content)
    ensures Tracks(e.(emitted := Some(e.content)), p.(ready := p.ready + [e.content]))
  {
    var s, t := p.ready, p.ready + [e.content];
    assert forall i :: 0 <= i < |s| ==> t[i] == s[i];
  }

  lemma RejectedTracks(e: Entry, p: Past)
    requires Tracks(e, p) && e.rejected != Some(e.content)
    ensures Tracks(e.(rejected := Some(e.content)), p.(refused := p.refused + [e.content]))
  {
    var s, t := p.refused, p.refused + [e.content];
    assert forall i :: 0 <= i < |s| ==> t[i] == s[i];
  }

  lemma ObserveTracks(e: Entry, p: Past, content: Content, now: int, settle: int, valid: bool, busy: bool)
    requires Tracks(e, p) && (p.seen != [] ==> p.seen[|p.seen| - 1].at <= now)
    ensures var (e1, out) := Observe(e, content, now, settle, valid, busy);
            Tracks(e1, Remember(p, content, now, out))
  {
    RefreshTracks(e, p, content, now);
    var e1, p1 := Refresh(e, content, now), p.(seen := p.seen + [Observation(now, content)]);
    if Unreported(e1) {
      EmittedTracks(e1, p1);
      RejectedTracks(e1, p1);
    }
  }

  lemma SettledIff(seen: seq<Observation>, settle: int)
    requires seen != [] && Ordered(seen)
    ensures Settled(seen, settle) <==>
            |seen| - HeldFrom(seen) >= 2 && seen[|seen| - 1].at - seen[HeldFrom(seen)].at >= settle
  {
  }

  // Which content of this file was reported last, of either kind.
  predicate LastReport(p: Past, content: Content) {
    LastOf(p.ready) == Some(content) || LastOf(p.refused) == Some(content)
  }

  // A file is reported ready by an observation exactly when it is settled, valid,
  // free, and not the content reported last; unless it was born empty with the
  // zero time.
  lemma ReadyIffSettled(e: Entry, p: Past, content: Content, now: int, settle: int, valid: bool, busy: bool)
    requires Tracks(e, p) && (p.seen != [] ==> p.seen[|p.seen| - 1].at <= now)
    requires !BornZero(p.seen + [Observation(now, content)])
    ensures var out := Observe(e, content, now, settle, valid, busy).1;
            var seen := p.seen + [Observation(now, content)];
            && (out.Ready? <==> Settled(seen, settle) && valid && !busy && !LastReport(p, content))
            && (out.Refused? <==> Settled(seen, settle) && !valid && !LastReport(p, content))
            && (out.Ready? ==> out.content == content && (out.changed <==> p.ready != []))
  {
    RefreshTracks(e, p, content, now);
    SettledIff(p.seen + [Observation(now, content)], settle);
  }

  // And if it was, it is reported once it has been seen twice and settle has
  // passed since the zero time, however short the time between.
  lemma ReadyWhenBornZero(e: Entry, p: Past, content: Content, now: int, settle: int, valid: bool, busy: bool)
    requires Tracks(e, p) && (p.seen != [] ==> p.seen[|p.seen| - 1].at <= now)
    requires BornZero(p.seen + [Observation(now, content)])
    ensures Observe(e, content, now, settle, valid, busy).1.Ready? <==>
            p.seen != [] && now - ZERO_TIME >= settle && valid && !busy && !LastReport(p, content)
  {
    RefreshTracks(e, p, content, now);
  }

  // So the settling time is not kept there: two looks at the same instant do.
  lemma BornZeroUnsettled(now: int, settle: int)
    requires now - ZERO_TIME >= settle > 0
    ensures var e := Observe(NEW_ENTRY, ZERO, now, settle, true, false).0;
            && Observe(e, ZERO, now, settle, true, false).1.Ready?
            && !Settled([Observation(now, ZERO), Observation(now, ZERO)], settle)
  {
  }
}
