// What one scan does for each file of the tree (internal/watch/watch.go: scanDir,
// scan): every file is looked at once, reported exactly when it should be, and
// forgotten when it is gone.
module WatcherReports {
  import opened Bytes
  import opened Folders
  import opened Settling
  import opened Watcher

  // This very file node stands in the folder dirs, and the way to it can be listed.
  ghost predicate Stands(nodes: seq<Node>, dirs: Path, f: Node)
    decreases dirs, 1
  {
    exists i :: 0 <= i < |nodes| && StandsAt(nodes[i], dirs, f)
  }

  ghost predicate StandsAt(n: Node, dirs: Path, f: Node)
    decreases dirs, 0
  {
    if dirs == [] then n == f
    else n.Folder? && n.name == dirs[0] && n.listing.Listed? && Stands(n.listing.nodes, dirs[1..], f)
  }

  // Between these states the file at key has been looked at once, with this
  // content.
  ghost predicate Looked(env: Env, a: State, b: State, key: Path, content: Content) {
    var (e, out) := Observe(EntryAt(a, key), content, env.now, env.settle, env.valid(key), env.busy(key));
    && key in b.entries && b.entries[key] == e
    && key in b.pasts && b.pasts[key] == Remember(PastAt(a, key), content, env.now, out)
    && key in b.seen
    && ReportsOf(b.toEmit, key) ==
         ReportsOf(a.toEmit, key) + (if out.Ready? then [File(key, content, out.changed)] else [])
    && ReportsOf(b.toReject, key) ==
         ReportsOf(a.toReject, key) + if out.Refused? then [File(key, content, false)] else []
  }

  // What a scan does at the place of this file node.
  ghost predicate Met(env: Env, a: State, b: State, key: Path, f: Node)
    requires f.FileNode?
  {
    if env.candidate(f.name) && f.stat.Regular? then Looked(env, a, b, key, Content(f.stat.size, f.stat.modTime))
    else
      && Same(a, b, key) && ReportsOf(b.toEmit, key) == ReportsOf(a.toEmit, key)
      && ReportsOf(b.toReject, key) == ReportsOf(a.toReject, key)
  }

  lemma LooksOnce(env: Env, st: State, key: Path, content: Content)
    ensures Looked(env, st, ScanFile(env, st, key, content), key, content)
  {
    var out := Observe(EntryAt(st, key), content, env.now, env.settle, env.valid(key), env.busy(key)).1;
    if out.Ready? { OneReportMore(st.toEmit, File(key, content, out.changed), key); }
    OneReportMore(st.toReject, File(key, content, false), key);
  }

  lemma MetThenUntouched(env: Env, a: State, b: State, t: State, key: Path, f: Node)
    requires f.FileNode? && Met(env, a, b, key, f) && Untouched(b, t, key)
    ensures Met(env, a, t, key, f)
  {
  }

  lemma UntouchedThenMet(env: Env, a: State, b: State, t: State, key: Path, f: Node)
    requires f.FileNode? && Untouched(a, b, key) && Met(env, b, t, key, f)
    ensures Met(env, a, t, key, f)
  {
    assert EntryAt(a, key) == EntryAt(b, key) && PastAt(a, key) == PastAt(b, key);
  }

  // The first component on the way to a file in a folder listed at this place.
  function Step(dirs: Path, f: Node): string {
    if dirs == [] then f.name else dirs[0]
  }

  lemma StandsNamed(n: Node, dirs: Path, f: Node)
    requires StandsAt(n, dirs, f)
    ensures n.name == Step(dirs, f)
  {
  }

  lemma KeyStep(at: Path, dirs: Path, f: Node)
    ensures var key := at + dirs + [f.name];
            at < key && key[|at|] == Step(dirs, f)
            && (dirs != [] ==> (at + [dirs[0]]) + dirs[1..] + [f.name] == key)
            && (dirs == [] ==> key == at + [f.name])
  {
    if dirs != [] { assert dirs == [dirs[0]] + dirs[1..]; }
  }

  // Scanning a folder meets each file standing below it, in folders that are all
  // entered, exactly once.
  lemma {:induction false} DirMeets(env: Env, st: State, at: Path, nodes: seq<Node>, dirs: Path, f: Node)
    requires DifferentNames(nodes) && f.FileNode? && Stands(nodes, dirs, f) && Accepted(env.hidden, at, dirs)
    ensures Met(env, st, ScanDir(env, st, at, nodes), at + dirs + [f.name], f)
    decreases nodes
  {
    var n, rest := nodes[0], nodes[1..];
    var st1 := ScanEntry(env, st, at, n);
    var key := at + dirs + [f.name];
    KeyStep(at, dirs, f);
    assert forall i :: 0 <= i < |rest| ==> rest[i] == nodes[i + 1];
    if StandsAt(n, dirs, f) {
      StandsNamed(n, dirs, f);
      EntryMeets(env, st, at, n, dirs, f);
      OtherNamesUntouched(env, st1, at, rest, key);
      MetThenUntouched(env, st, st1, ScanDir(env, st1, at, rest), key, f);
    } else {
      var i :| 0 <= i < |nodes| && StandsAt(nodes[i], dirs, f);
      StandsNamed(nodes[i], dirs, f);
      assert StandsAt(rest[i - 1], dirs, f);
      OtherNameUntouched(env, st, at, n, key);
      DirMeets(env, st1, at, rest, dirs, f);
      UntouchedThenMet(env, st, st1, ScanDir(env, st1, at, rest), key, f);
    }
  }

  lemma {:induction false} EntryMeets(env: Env, st: State, at: Path, n: Node, dirs: Path, f: Node)
    requires f.FileNode? && StandsAt(n, dirs, f) && Accepted(env.hidden, at, dirs)
    requires n.Folder? && n.listing.Listed? ==> DifferentNames(n.listing.nodes)
    ensures Met(env, st, ScanEntry(env, st, at, n), at + dirs + [f.name], f)
    decreases n
  {
    var key := at + dirs + [f.name];
    KeyStep(at, dirs, f);
    if dirs == [] {
      if f.stat.Regular? { LooksOnce(env, st, key, Content(f.stat.size, f.stat.modTime)); }
    } else {
      AcceptedStep(env.hidden, at, dirs);
      DirMeets(env, st, at + [n.name], n.listing.nodes, dirs[1..], f);
    }
  }

  // --- One scan --------------------------------------------------------------------

  // The file's past as this scan leaves it.
  ghost predicate SeenOnceMore(env: Env, st: State, t: State, key: Path, content: Content) {
    key in t.pasts && t.pasts[key].seen == PastAt(st, key).seen + [Observation(env.now, content)]
  }

  lemma ScanMeets(env: Env, st: State, nodes: seq<Node>, dirs: Path, f: Node, t: State)
    requires DifferentNames(nodes) && f.FileNode? && Stands(nodes, dirs, f) && Accepted(env.hidden, [], dirs)
    requires env.candidate(f.name) && f.stat.Regular? && t == Scan(env, st, Listed(nodes))
    ensures Looked(env, Fresh(st), t, dirs + [f.name], Content(f.stat.size, f.stat.modTime))
  {
    DirMeets(env, Fresh(st), [], nodes, dirs, f);
    assert [] + dirs + [f.name] == dirs + [f.name];
  }

  // Every tracked file standing where the walk goes is observed once, as listed;
  // it is reported ready exactly if it is then settled, valid, free and not what
  // was reported last, and rejected exactly if settled, invalid and not so reported.
  lemma ScanReports(env: Env, st: State, nodes: seq<Node>, dirs: Path, name: string, size: int, modTime: int)
    requires DifferentNames(nodes) && EntriesOk(env.now, st) && env.candidate(name)
    requires Stands(nodes, dirs, FileNode(name, Regular(size, modTime))) && Accepted(env.hidden, [], dirs)
    requires !BornZero(PastAt(st, dirs + [name]).seen + [Observation(env.now, Content(size, modTime))])
    ensures var t, key, content := Scan(env, st, Listed(nodes)), dirs + [name], Content(size, modTime);
            var p := PastAt(st, key);
            var settled := Settled(p.seen + [Observation(env.now, content)], env.settle);
            && SeenOnceMore(env, st, t, key, content)
            && ReportsOf(t.toEmit, key) ==
                 (if settled && env.valid(key) && !env.busy(key) && !LastReport(p, content)
                  then [File(key, content, p.ready != [])] else [])
            && ReportsOf(t.toReject, key) ==
                 if settled && !env.valid(key) && !LastReport(p, content) then [File(key, content, false)] else []
  {
    var key, content := dirs + [name], Content(size, modTime);
    ScanMeets(env, st, nodes, dirs, FileNode(name, Regular(size, modTime)), Scan(env, st, Listed(nodes)));
    EntryInOrder(env.now, st, key);
    ReadyIffSettled(EntryAt(st, key), PastAt(st, key), content, env.now, env.settle, env.valid(key), env.busy(key));
  }

  // The same for a file born empty with the zero time, which needs two looks but
  // no settling between them.
  lemma ScanReportsBornZero(env: Env, st: State, nodes: seq<Node>, dirs: Path, name: string)
    requires DifferentNames(nodes) && EntriesOk(env.now, st) && env.candidate(name)
    requires Stands(nodes, dirs, FileNode(name, Regular(ZERO.size, ZERO.modTime))) && Accepted(env.hidden, [], dirs)
    requires BornZero(PastAt(st, dirs + [name]).seen + [Observation(env.now, ZERO)])
    ensures var t, key := Scan(env, st, Listed(nodes)), dirs + [name];
            var p := PastAt(st, key);
            && SeenOnceMore(env, st, t, key, ZERO)
            && ((exists f :: f in ReportsOf(t.toEmit, key)) <==>
                  && p.seen != [] && env.now - ZERO_TIME >= env.settle
                  && env.valid(key) && !env.busy(key) && !LastReport(p, ZERO))
  {
    var key := dirs + [name];
    var t := Scan(env, st, Listed(nodes));
    ScanMeets(env, st, nodes, dirs, FileNode(name, Regular(ZERO.size, ZERO.modTime)), t);
    EntryInOrder(env.now, st, key);
    ReadyWhenBornZero(EntryAt(st, key), PastAt(st, key), ZERO, env.now, env.settle, env.valid(key), env.busy(key));
    var out := Observe(EntryAt(st, key), ZERO, env.now, env.settle, env.valid(key), env.busy(key)).1;
    if out.Ready? { assert File(key, ZERO, out.changed) in ReportsOf(t.toEmit, key); }
  }

  // --- Nothing else is reported -------------------------------------------------------

  lemma {:induction false} ReportedIn(files: seq<File>, f: File)
    ensures f in files <==> f in ReportsOf(files, f.path)
    decreases |files|
  {
    if files != [] { ReportedIn(files[..|files| - 1], f); }
  }

  // A report is of a file the scan has seen.
  lemma {:induction false} DirReportsSeen(env: Env, st: State, at: Path, nodes: seq<Node>)
    requires ReportsSeen(st)
    ensures ReportsSeen(ScanDir(env, st, at, nodes))
    decreases nodes
  {
    if nodes != [] {
      EntryReportsSeen(env, st, at, nodes[0]);
      DirReportsSeen(env, ScanEntry(env, st, at, nodes[0]), at, nodes[1..]);
    }
  }

  ghost predicate ReportsSeen(st: State) {
    && (forall f :: f in st.toEmit ==> f.path in st.seen)
    && (forall f :: f in st.toReject ==> f.path in st.seen)
  }

  lemma {:induction false} EntryReportsSeen(env: Env, st: State, at: Path, n: Node)
    requires ReportsSeen(st)
    ensures ReportsSeen(ScanEntry(env, st, at, n))
    decreases n
  {
    if n.Folder? && n.listing.Listed? {
      DirReportsSeen(env, st, at + [n.name], n.listing.nodes);
    }
  }

  lemma {:induction false} TrackedStands(env: Env, nodes: seq<Node>, dirs: Path, name: string) returns (f: Node)
    requires HasFile(env, nodes, dirs, name)
    ensures Tracked(env, f) && f.name == name && Stands(nodes, dirs, f)
    decreases dirs
  {
    var i :| 0 <= i < |nodes| && Holds(env, nodes[i], dirs, name);
    if dirs == [] {
      f := nodes[i];
    } else {
      f := TrackedStands(env, nodes[i].listing.nodes, dirs[1..], name);
    }
    assert StandsAt(nodes[i], dirs, f);
  }

  // Whatever a scan reports is a tracked regular file standing where the walk
  // goes, with the size and time listed there.
  lemma ReportsOnlyListed(env: Env, st: State, nodes: seq<Node>, f: File) returns (dirs: Path, name: string)
    requires DifferentNames(nodes)
    requires f in Scan(env, st, Listed(nodes)).toEmit || f in Scan(env, st, Listed(nodes)).toReject
    ensures f.path == dirs + [name] && env.candidate(name) && Accepted(env.hidden, [], dirs)
    ensures Stands(nodes, dirs, FileNode(name, Regular(f.content.size, f.content.modTime)))
  {
    var t := ScanDir(env, Fresh(st), [], nodes);
    DirReportsSeen(env, Fresh(st), [], nodes);
    if f.path == [] { OutsideUntouched(env, Fresh(st), [], nodes, []); }
    dirs, name := f.path[..|f.path| - 1], f.path[|f.path| - 1];
    DirSees(env, Fresh(st), [], nodes, dirs, name);
    assert [] + dirs + [name] == dirs + [name] == f.path;
    var n := TrackedStands(env, nodes, dirs, name);
    DirMeets(env, Fresh(st), [], nodes, dirs, n);
    ReportedIn(t.toEmit, f);
    ReportedIn(t.toReject, f);
    assert n == FileNode(name, Regular(f.content.size, f.content.modTime));
  }

  // --- What is gone is forgotten -----------------------------------------------------

  // What is on record after a scan: the tracked files standing where the walk
  // goes, and whatever was on record under folders that could not be listed.
  lemma RememberedIff(env: Env, st: State, nodes: seq<Node>, dirs: Path, name: string)
    requires dirs + [name] in st.entries
    ensures var key := dirs + [name];
            key in Scan(env, st, Listed(nodes)).entries <==>
            || (HasFile(env, nodes, dirs, name) && Accepted(env.hidden, [], dirs))
            || exists d :: d in Shut(env, [], nodes) && |d| < |key| && key[..|d|] == d
  {
    var key := dirs + [name];
    DirSees(env, Fresh(st), [], nodes, dirs, name);
    assert [] + dirs + [name] == key;
    UnlistedIsShut(env, Fresh(st), [], nodes);
    assert [] + Shut(env, [], nodes) == Shut(env, [], nodes);
    DirRemembers(env, Fresh(st), [], nodes, key);
    assert UnderAny(key, Shut(env, [], nodes)) <==>
           exists d :: d in Shut(env, [], nodes) && |d| < |key| && key[..|d|] == d;
  }

  lemma {:induction false} DirRemembers(env: Env, st: State, at: Path, nodes: seq<Node>, key: Path)
    requires key in st.entries
    ensures key in ScanDir(env, st, at, nodes).entries
    decreases nodes
  {
    if nodes != [] {
      EntryRemembers(env, st, at, nodes[0], key);
      DirRemembers(env, ScanEntry(env, st, at, nodes[0]), at, nodes[1..], key);
    }
  }

  lemma {:induction false} EntryRemembers(env: Env, st: State, at: Path, n: Node, key: Path)
    requires key in st.entries
    ensures key in ScanEntry(env, st, at, n).entries
    decreases n
  {
    if n.Folder? && n.listing.Listed? { DirRemembers(env, st, at + [n.name], n.listing.nodes, key); }
  }

  // A file that is gone, and not in a folder that could not be listed, leaves no
  // trace.
  lemma VanishedLeavesNoTrace(env: Env, st: State, nodes: seq<Node>, dirs: Path, name: string)
    requires EntriesOk(env.now, st)
    requires !(HasFile(env, nodes, dirs, name) && Accepted(env.hidden, [], dirs))
    requires !UnderAny(dirs + [name], Shut(env, [], nodes))
    ensures PastAt(Scan(env, st, Listed(nodes)), dirs + [name]) == UNSEEN
  {
    var key := dirs + [name];
    ScanKeeps(env, st, Listed(nodes));
    DirSees(env, Fresh(st), [], nodes, dirs, name);
    assert [] + dirs + [name] == key;
    UnlistedIsShut(env, Fresh(st), [], nodes);
    assert [] + Shut(env, [], nodes) == Shut(env, [], nodes);
    assert key !in Scan(env, st, Listed(nodes)).pasts;
  }

  // The file stands in the tree with this content.
  ghost predicate Listing(env: Env, nodes: seq<Node>, dirs: Path, name: string, content: Content) {
    && DifferentNames(nodes) && env.candidate(name) && Accepted(env.hidden, [], dirs)
    && Stands(nodes, dirs, FileNode(name, Regular(content.size, content.modTime)))
  }

  lemma SettledTwice(a: Observation, b: Observation, settle: int)
    requires a.content == b.content && b.at - a.at >= settle
    ensures Settled([a, b], settle)
  {
    var seen := [a, b];
    assert HoldsFrom(seen, 0) && seen[|seen| - 1].at - seen[0].at >= settle;
  }

  lemma OnceUnsettled(a: Observation, settle: int)
    ensures !Settled([a], settle)
  {
  }

  // The first scan that finds a file it knows nothing of reports nothing.
  lemma FirstScanQuiet(env: Env, st: State, nodes: seq<Node>, dirs: Path, name: string, content: Content)
    requires EntriesOk(env.now, st) && PastAt(st, dirs + [name]) == UNSEEN && content != ZERO
    requires Listing(env, nodes, dirs, name, content)
    ensures PastAt(Scan(env, st, Listed(nodes)), dirs + [name]) == Past([Observation(env.now, content)], [], [])
  {
    var key, o := dirs + [name], Observation(env.now, content);
    var t := Scan(env, st, Listed(nodes));
    assert [] + [o] == [o];
    OnceUnsettled(o, env.settle);
    EntryInOrder(env.now, st, key);
    ReadyIffSettled(EntryAt(st, key), UNSEEN, content, env.now, env.settle, env.valid(key), env.busy(key));
    ScanMeets(env, st, nodes, dirs, FileNode(name, Regular(content.size, content.modTime)), t);
  }

  // And the second, if it finds it unchanged and settled, valid and free, reports it.
  lemma SecondScanReports(env: Env, st: State, nodes: seq<Node>, dirs: Path, name: string, content: Content, first: int)
    requires EntriesOk(env.now, st) && content != ZERO && env.now - first >= env.settle
    requires PastAt(st, dirs + [name]) == Past([Observation(first, content)], [], [])
    requires Listing(env, nodes, dirs, name, content) && env.valid(dirs + [name]) && !env.busy(dirs + [name])
    ensures ReportsOf(Scan(env, st, Listed(nodes)).toEmit, dirs + [name]) == [File(dirs + [name], content, false)]
  {
    var a, b := Observation(first, content), Observation(env.now, content);
    assert [a] + [b] == [a, b];
    SettledTwice(a, b, env.settle);
    ScanReports(env, st, nodes, dirs, name, content.size, content.modTime);
  }

  // So a file that vanishes and comes back, even with the content it was reported
  // with before, is reported again as a new one once it has settled.
  lemma ReportedAnew(
      gone: Env, n1: seq<Node>, back: Env, n2: seq<Node>, settled: Env, n3: seq<Node>,
      st: State, st1: State, st2: State, dirs: Path, name: string, content: Content)
    requires st1 == Scan(gone, st, Listed(n1)) && st2 == Scan(back, st1, Listed(n2))
    requires EntriesOk(gone.now, st) && gone.now <= back.now <= settled.now - settled.settle && settled.settle >= 0
    requires !(HasFile(gone, n1, dirs, name) && Accepted(gone.hidden, [], dirs))
    requires !UnderAny(dirs + [name], Shut(gone, [], n1))
    requires content != ZERO && Listing(back, n2, dirs, name, content) && Listing(settled, n3, dirs, name, content)
    requires settled.valid(dirs + [name]) && !settled.busy(dirs + [name])
    ensures ReportsOf(Scan(settled, st2, Listed(n3)).toEmit, dirs + [name]) == [File(dirs + [name], content, false)]
  {
    ScanKeeps(gone, st, Listed(n1));
    EntriesLater(gone.now, back.now, st1);
    VanishedLeavesNoTrace(gone, st, n1, dirs, name);
    FirstScanQuiet(back, st1, n2, dirs, name, content);
    ScanKeeps(back, st1, Listed(n2));
    EntriesLater(back.now, settled.now, st2);
    SecondScanReports(settled, st2, n3, dirs, name, content, back.now);
  }

  lemma EntriesLater(from: int, now: int, st: State)
    requires EntriesOk(from, st) && from <= now
    ensures EntriesOk(now, st)
  {
    Later(from, now, st);
  }

  // When the watched folder itself cannot be listed, the scan reports nothing and
  // keeps everything on record.
  lemma NothingListed(env: Env, st: State, key: Path)
    ensures var t := Scan(env, st, Unlistable);
            Same(st, t, key) && t.toEmit == [] && t.toReject == []
  {
  }
}
