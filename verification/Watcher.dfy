// The folder watcher (internal/watch/watch.go: scan, scanDir, scanSubdir): one
// listing of the tree after another, and the entries they leave.
module Watcher {
  import opened Bytes
  import opened Folders
  import opened Settling

  datatype File = File(path: Path, content: Content, changed: bool)

  // What one scan is given: the time, and the answers of the functions it calls.
  datatype Env = Env(
    now: int, settle: int, hidden: Path -> bool, candidate: string -> bool,
    valid: Path -> bool, busy: Path -> bool)

  // The entries with their pasts, and the state of the scan under way.
  datatype State = State(
    entries: map<Path, Entry>, pasts: map<Path, Past>, seen: set<Path>,
    unlisted: seq<Path>, toEmit: seq<File>, toReject: seq<File>)

  function EntryAt(st: State, key: Path): Entry {
    if key in st.entries then st.entries[key] else NEW_ENTRY
  }

  function PastAt(st: State, key: Path): Past {
    if key in st.pasts then st.pasts[key] else UNSEEN
  }

  function ScanFile(env: Env, st: State, key: Path, content: Content): State {
    var (e, out) := Observe(EntryAt(st, key), content, env.now, env.settle, env.valid(key), env.busy(key));
    State(st.entries[key := e], st.pasts[key := Remember(PastAt(st, key), content, env.now, out)],
          st.seen + {key}, st.unlisted,
          if out.Ready? then st.toEmit + [File(key, content, out.changed)] else st.toEmit,
          if out.Refused? then st.toReject + [File(key, content, false)] else st.toReject)
  }

  function ScanDir(env: Env, st: State, at: Path, nodes: seq<Node>): State
    decreases nodes
  {
    if nodes == [] then st else ScanDir(env, ScanEntry(env, st, at, nodes[0]), at, nodes[1..])
  }

  function ScanEntry(env: Env, st: State, at: Path, n: Node): State
    decreases n
  {
    match n
    case FileNode(name, stat) =>
      if !env.candidate(name) || stat.Irregular? then st
      else if stat.Unknown? then st.(seen := st.seen + {at + [name]})
      else ScanFile(env, st, at + [name], Content(stat.size, stat.modTime))
    case Folder(name, listing) =>
      if !Enters(env.hidden, at, name) then st
      else if listing.Unlistable? then st.(unlisted := st.unlisted + [at + [name]])
      else ScanDir(env, st, at + [name], listing.nodes)
  }

  predicate UnderAny(key: Path, dirs: seq<Path>) {
    exists d :: d in dirs && d < key
  }

  predicate Remains(st: State, key: Path) {
    key in st.seen || UnderAny(key, st.unlisted)
  }

  // What has neither been seen nor may be in a folder that could not be listed
  // is forgotten.
  function Forget(st: State): State {
    st.(entries := map k | k in st.entries && Remains(st, k) :: st.entries[k],
        pasts := map k | k in st.pasts && Remains(st, k) :: st.pasts[k])
  }

  function Fresh(st: State): State {
    st.(seen := {}, unlisted := [], toEmit := [], toReject := [])
  }

  // One scan; when the top folder itself cannot be listed it does nothing.
  function Scan(env: Env, st: State, listing: Listing): State {
    if listing.Unlistable? then Fresh(st) else Forget(ScanDir(env, Fresh(st), [], listing.nodes))
  }

  // --- Every run -------------------------------------------------------------------

  // A report made in this scan rests on what has been observed up to then.
  ghost predicate Justified(env: Env, p: Past, f: File) {
    && f.content in p.ready && env.valid(f.path) && !env.busy(f.path)
    && exists n :: 0 < n <= |p.seen| && Rests(env, p.seen[..n], f)
  }

  ghost predicate Rests(env: Env, seen: seq<Observation>, f: File) {
    && seen != [] && seen[|seen| - 1] == Observation(env.now, f.content)
    && |seen| >= 2 && (Settled(seen, env.settle) || BornZero(seen))
  }

  ghost predicate InOrder(now: int, e: Entry, p: Past) {
    Tracks(e, p) && (p.seen != [] ==> p.seen[|p.seen| - 1].at <= now)
  }

  ghost predicate AllPairs<K(!new), E(!new), P(!new)>(ok: (E, P) -> bool, es: map<K, E>, ps: map<K, P>) {
    es.Keys == ps.Keys && forall k :: k in es ==> ok(es[k], ps[k])
  }

  lemma PairPut<K(!new), E(!new), P(!new)>(ok: (E, P) -> bool, es: map<K, E>, ps: map<K, P>, k: K, e: E, p: P)
    requires AllPairs(ok, es, ps) && ok(e, p)
    ensures AllPairs(ok, es[k := e], ps[k := p])
  {
  }

  ghost function Orderly(now: int): (Entry, Past) -> bool {
    (e, p) => InOrder(now, e, p)
  }

  ghost predicate EntriesOk(now: int, st: State) {
    AllPairs(Orderly(now), st.entries, st.pasts)
  }

  ghost predicate ReportsOk(env: Env, st: State) {
    forall f :: f in st.toEmit ==> f.path in st.seen && f.path in st.pasts && Justified(env, st.pasts[f.path], f)
  }

  lemma ReportJustified(env: Env, e: Entry, p: Past, key: Path, content: Content)
    requires InOrder(env.now, e, p)
    ensures var (e1, out) := Observe(e, content, env.now, env.settle, env.valid(key), env.busy(key));
            && InOrder(env.now, e1, Remember(p, content, env.now, out))
            && (out.Ready? ==> Justified(env, Remember(p, content, env.now, out), File(key, content, out.changed)))
  {
    ObserveTracks(e, p, content, env.now, env.settle, env.valid(key), env.busy(key));
    var out := Observe(e, content, env.now, env.settle, env.valid(key), env.busy(key)).1;
    var q := Remember(p, content, env.now, out);
    if out.Ready? {
      ReadyRests(env, e, p, key, content);
      assert q.seen[..|q.seen|] == q.seen;
      assert content == q.ready[|q.ready| - 1];
    }
  }

  lemma ReadyRests(env: Env, e: Entry, p: Past, key: Path, content: Content)
    requires InOrder(env.now, e, p)
    requires Observe(e, content, env.now, env.settle, env.valid(key), env.busy(key)).1.Ready?
    ensures env.valid(key) && !env.busy(key)
    ensures forall changed :: Rests(env, p.seen + [Observation(env.now, content)], File(key, content, changed))
  {
    if BornZero(p.seen + [Observation(env.now, content)]) {
      ReadyWhenBornZero(e, p, content, env.now, env.settle, env.valid(key), env.busy(key));
    } else {
      ReadyIffSettled(e, p, content, env.now, env.settle, env.valid(key), env.busy(key));
    }
  }

  // Later observations take nothing away.
  lemma StaysJustified(env: Env, p: Past, f: File, content: Content, out: Outcome)
    requires Justified(env, p, f)
    ensures Justified(env, Remember(p, content, env.now, out), f)
  {
    var n :| 0 < n <= |p.seen| && Rests(env, p.seen[..n], f);
    var q := Remember(p, content, env.now, out);
    assert q.seen[..n] == p.seen[..n];
  }

  lemma FileKeeps(env: Env, st: State, key: Path, content: Content)
    requires EntriesOk(env.now, st) && ReportsOk(env, st)
    ensures EntriesOk(env.now, ScanFile(env, st, key, content)) && ReportsOk(env, ScanFile(env, st, key, content))
  {
    FileEntriesKeep(env, st, key, content);
    var t := ScanFile(env, st, key, content);
    forall f | f in t.toEmit ensures f.path in t.seen && f.path in t.pasts && Justified(env, t.pasts[f.path], f) {
      EmitKeeps(env, st, key, content, f);
    }
  }

  lemma EntryInOrder(now: int, st: State, key: Path)
    requires EntriesOk(now, st)
    ensures InOrder(now, EntryAt(st, key), PastAt(st, key))
  {
    if key in st.entries {
      assert Orderly(now)(st.entries[key], st.pasts[key]);
    } else {
      assert key !in st.pasts.Keys;
    }
  }

  lemma FileEntriesKeep(env: Env, st: State, key: Path, content: Content)
    requires EntriesOk(env.now, st)
    ensures EntriesOk(env.now, ScanFile(env, st, key, content))
  {
    var e, p := EntryAt(st, key), PastAt(st, key);
    EntryInOrder(env.now, st, key);
    ReportJustified(env, e, p, key, content);
    var (e1, out) := Observe(e, content, env.now, env.settle, env.valid(key), env.busy(key));
    PairPut(Orderly(env.now), st.entries, st.pasts, key, e1, Remember(p, content, env.now, out));
  }

  lemma EmitKeeps(env: Env, st: State, key: Path, content: Content, f: File)
    requires EntriesOk(env.now, st) && ReportsOk(env, st) && f in ScanFile(env, st, key, content).toEmit
    ensures f.path in st.seen + {key} && (f.path in st.pasts || f.path == key)
    ensures Justified(env, ScanFile(env, st, key, content).pasts[f.path], f)
  {
    var e, p := EntryAt(st, key), PastAt(st, key);
    var out := Observe(e, content, env.now, env.settle, env.valid(key), env.busy(key)).1;
    if f in st.toEmit {
      if f.path == key {
        StaysJustified(env, p, f, content, out);
      }
    } else {
      EntryInOrder(env.now, st, key);
      ReportJustified(env, e, p, key, content);
    }
  }

  lemma {:induction false} DirKeeps(env: Env, st: State, at: Path, nodes: seq<Node>)
    requires EntriesOk(env.now, st) && ReportsOk(env, st)
    ensures EntriesOk(env.now, ScanDir(env, st, at, nodes)) && ReportsOk(env, ScanDir(env, st, at, nodes))
    decreases nodes
  {
    if nodes != [] {
      EntryKeeps(env, st, at, nodes[0]);
      DirKeeps(env, ScanEntry(env, st, at, nodes[0]), at, nodes[1..]);
    }
  }

  lemma {:induction false} EntryKeeps(env: Env, st: State, at: Path, n: Node)
    requires EntriesOk(env.now, st) && ReportsOk(env, st)
    ensures EntriesOk(env.now, ScanEntry(env, st, at, n)) && ReportsOk(env, ScanEntry(env, st, at, n))
    decreases n
  {
    match n
    case FileNode(name, stat) =>
      if stat.Regular? { FileKeeps(env, st, at + [name], Content(stat.size, stat.modTime)); }
    case Folder(name, listing) =>
      if listing.Listed? { DirKeeps(env, st, at + [name], listing.nodes); }
  }

  // One scan after another, the clock not going back.
  datatype Round = Round(env: Env, listing: Listing)

  function AfterScans(st: State, rounds: seq<Round>): State
    decreases |rounds|
  {
    if rounds == [] then st else AfterScans(Scan(rounds[0].env, st, rounds[0].listing), rounds[1..])
  }

  predicate InTime(from: int, rounds: seq<Round>)
    decreases |rounds|
  {
    rounds == [] || (from <= rounds[0].env.now && InTime(rounds[0].env.now, rounds[1..]))
  }

  function EndOf(from: int, rounds: seq<Round>): int
    decreases |rounds|
  {
    if rounds == [] then from else EndOf(rounds[0].env.now, rounds[1..])
  }

  const EMPTY := State(map[], map[], {}, [], [], [])

  lemma Later(from: int, now: int, st: State)
    requires EntriesOk(from, st) && from <= now
    ensures EntriesOk(now, Fresh(st))
  {
    forall k | k in st.entries ensures Orderly(now)(st.entries[k], st.pasts[k]) {
      assert Orderly(from)(st.entries[k], st.pasts[k]);
    }
  }

  // What a scan reports rests on at least two observations of exactly this
  // content, the last of them now, over at least the settling time (or of a file
  // born empty with the zero time), and the file is valid and free.
  lemma ScanKeeps(env: Env, st: State, listing: Listing)
    requires EntriesOk(env.now, st)
    ensures EntriesOk(env.now, Scan(env, st, listing))
    ensures ReportsOk(env, Scan(env, st, listing))
  {
    Later(env.now, env.now, st);
    if listing.Listed? {
      DirKeeps(env, Fresh(st), [], listing.nodes);
    }
  }

  // Over every run each entry is what has been observed since its file appeared:
  // no content is reported twice in a row, and ReadyIffSettled tells exactly
  // when the next report comes.
  lemma {:induction false} EveryRunTracks(from: int, st: State, rounds: seq<Round>)
    requires EntriesOk(from, st) && InTime(from, rounds)
    ensures EntriesOk(EndOf(from, rounds), AfterScans(st, rounds))
    decreases |rounds|
  {
    if rounds != [] {
      Later(from, rounds[0].env.now, st);
      assert EntriesOk(rounds[0].env.now, st);
      ScanKeeps(rounds[0].env, st, rounds[0].listing);
      EveryRunTracks(rounds[0].env.now, Scan(rounds[0].env, st, rounds[0].listing), rounds[1..]);
    }
  }

  lemma FromTheStart(from: int)
    ensures EntriesOk(from, EMPTY)
  {
  }

  // --- Folders that cannot be listed -----------------------------------------------

  predicate DifferentNames(nodes: seq<Node>)
    decreases nodes
  {
    nodes != [] ==>
    && (forall i :: 0 < i < |nodes| ==> nodes[i].name != nodes[0].name)
    && (nodes[0].Folder? && nodes[0].listing.Listed? ==> DifferentNames(nodes[0].listing.nodes))
    && DifferentNames(nodes[1..])
  }

  // The folders the walk meets and cannot list.
  function Shut(env: Env, at: Path, nodes: seq<Node>): seq<Path>
    decreases nodes
  {
    if nodes == [] then [] else ShutBy(env, at, nodes[0]) + Shut(env, at, nodes[1..])
  }

  function ShutBy(env: Env, at: Path, n: Node): seq<Path>
    decreases n
  {
    match n
    case FileNode(_, _) => []
    case Folder(name, listing) =>
      if !Enters(env.hidden, at, name) then []
      else if listing.Unlistable? then [at + [name]]
      else Shut(env, at + [name], listing.nodes)
  }

  predicate Same(a: State, b: State, key: Path) {
    && (key in a.entries <==> key in b.entries) && (key in a.entries ==> a.entries[key] == b.entries[key])
    && (key in a.pasts <==> key in b.pasts) && (key in a.pasts ==> a.pasts[key] == b.pasts[key])
  }

  // The reports about this path, in order.
  function ReportsOf(files: seq<File>, key: Path): seq<File> {
    if files == [] then []
    else
      var f := files[|files| - 1];
      ReportsOf(files[..|files| - 1], key) + if f.path == key then [f] else []
  }

  lemma OneReportMore(files: seq<File>, f: File, key: Path)
    ensures ReportsOf(files + [f], key) == ReportsOf(files, key) + if f.path == key then [f] else []
  {
    assert (files + [f])[..|files|] == files;
  }

  // Nothing has been noted or reported of this path.
  predicate Untouched(a: State, b: State, key: Path) {
    && Same(a, b, key) && (key in a.seen <==> key in b.seen)
    && ReportsOf(b.toEmit, key) == ReportsOf(a.toEmit, key)
    && ReportsOf(b.toReject, key) == ReportsOf(a.toReject, key)
  }

  lemma OtherFileUntouched(env: Env, st: State, other: Path, content: Content, key: Path)
    requires other != key
    ensures Untouched(st, ScanFile(env, st, other, content), key)
  {
    var out := Observe(EntryAt(st, other), content, env.now, env.settle, env.valid(other), env.busy(other)).1;
    if out.Ready? { OneReportMore(st.toEmit, File(other, content, out.changed), key); }
    OneReportMore(st.toReject, File(other, content, false), key);
  }

  lemma {:induction false} UnlistedIsShut(env: Env, st: State, at: Path, nodes: seq<Node>)
    ensures ScanDir(env, st, at, nodes).unlisted == st.unlisted + Shut(env, at, nodes)
    decreases nodes
  {
    if nodes != [] {
      var n := nodes[0];
      if n.Folder? && n.listing.Listed? {
        UnlistedIsShut(env, st, at + [n.name], n.listing.nodes);
      }
      assert ScanEntry(env, st, at, n).unlisted == st.unlisted + ShutBy(env, at, n);
      UnlistedIsShut(env, ScanEntry(env, st, at, n), at, nodes[1..]);
    }
  }

  // A scan of a folder touches only what lies in it.
  lemma {:induction false} OutsideUntouched(env: Env, st: State, at: Path, nodes: seq<Node>, key: Path)
    requires !(at < key)
    ensures Untouched(st, ScanDir(env, st, at, nodes), key)
    decreases nodes
  {
    if nodes != [] {
      var n := nodes[0];
      assert at < at + [n.name];
      OutsideEntryUntouched(env, st, at, n, key);
      OutsideUntouched(env, ScanEntry(env, st, at, n), at, nodes[1..], key);
    }
  }

  lemma {:induction false} OutsideEntryUntouched(env: Env, st: State, at: Path, n: Node, key: Path)
    requires !(at + [n.name] <= key)
    ensures Untouched(st, ScanEntry(env, st, at, n), key)
    decreases n
  {
    match n
    case FileNode(name, stat) =>
      if stat.Regular? { OtherFileUntouched(env, st, at + [name], Content(stat.size, stat.modTime), key); }
    case Folder(name, listing) =>
      if listing.Listed? { OutsideUntouched(env, st, at + [name], listing.nodes, key); }
  }

  // One entry touches only what its name leads to.
  lemma OtherNameUntouched(env: Env, st: State, at: Path, n: Node, key: Path)
    requires at < key && n.name != key[|at|]
    ensures Untouched(st, ScanEntry(env, st, at, n), key)
  {
    assert (at + [n.name])[|at|] == n.name;
    OutsideEntryUntouched(env, st, at, n, key);
  }

  lemma {:induction false} OtherNamesUntouched(env: Env, st: State, at: Path, nodes: seq<Node>, key: Path)
    requires at < key && forall i :: 0 <= i < |nodes| ==> nodes[i].name != key[|at|]
    ensures Untouched(st, ScanDir(env, st, at, nodes), key)
    decreases nodes
  {
    if nodes != [] {
      OtherNameUntouched(env, st, at, nodes[0], key);
      OtherNamesUntouched(env, ScanEntry(env, st, at, nodes[0]), at, nodes[1..], key);
    }
  }

  lemma {:induction false} ShutBelow(env: Env, at: Path, nodes: seq<Node>, d: Path)
    requires d in Shut(env, at, nodes)
    ensures at < d && exists i :: 0 <= i < |nodes| && nodes[i].name == d[|at|]
    decreases nodes
  {
    var n := nodes[0];
    if d in ShutBy(env, at, n) {
      ShutByBelow(env, at, n, d);
    } else {
      ShutBelow(env, at, nodes[1..], d);
      var i :| 0 <= i < |nodes[1..]| && nodes[1..][i].name == d[|at|];
      assert nodes[i + 1].name == d[|at|];
    }
  }

  lemma {:induction false} ShutByBelow(env: Env, at: Path, n: Node, d: Path)
    requires d in ShutBy(env, at, n)
    ensures at < d && n.name == d[|at|]
    decreases n
  {
    var sub := at + [n.name];
    assert at < sub && sub[|at|] == n.name;
    if n.listing.Listed? {
      ShutBelow(env, sub, n.listing.nodes, d);
      assert d[|at|] == sub[|at|];
    }
  }

  // Whatever is on record under a folder that cannot be listed stays as it is.
  lemma {:induction false} ShutUntouched(env: Env, st: State, at: Path, nodes: seq<Node>, d: Path, key: Path)
    requires DifferentNames(nodes) && d in Shut(env, at, nodes) && d < key
    ensures Untouched(st, ScanDir(env, st, at, nodes), key)
    decreases nodes
  {
    var n := nodes[0];
    var st1 := ScanEntry(env, st, at, n);
    if d in ShutBy(env, at, n) {
      ShutByBelow(env, at, n, d);
      if n.listing.Listed? {
        ShutUntouched(env, st, at + [n.name], n.listing.nodes, d, key);
      }
      assert Untouched(st, st1, key);
      assert forall i :: 0 <= i < |nodes[1..]| ==> nodes[1..][i] == nodes[i + 1];
      OtherNamesUntouched(env, st1, at, nodes[1..], key);
    } else {
      ShutBelow(env, at, nodes[1..], d);
      var i :| 0 <= i < |nodes[1..]| && nodes[1..][i].name == d[|at|];
      assert nodes[i + 1].name != n.name;
      OtherNameUntouched(env, st, at, n, key);
      ShutUntouched(env, st1, at, nodes[1..], d, key);
    }
  }

  // So a scan that cannot list a folder keeps the history of everything in it.
  lemma UnlistableKeepsHistory(env: Env, st: State, nodes: seq<Node>, d: Path, key: Path)
    requires DifferentNames(nodes) && d in Shut(env, [], nodes) && d < key
    ensures Same(st, Scan(env, st, Listed(nodes)), key)
  {
    ShutUntouched(env, Fresh(st), [], nodes, d, key);
    UnlistedIsShut(env, Fresh(st), [], nodes);
    assert d in ScanDir(env, Fresh(st), [], nodes).unlisted;
  }

  // --- The walk and the path predicate ---------------------------------------------

  // A file the watcher tracks by its name and kind.
  predicate Tracked(env: Env, n: Node) {
    n.FileNode? && env.candidate(n.name) && !n.stat.Irregular?
  }

  // Such a file stands at this place, and the way to it can be listed.
  ghost predicate HasFile(env: Env, nodes: seq<Node>, dirs: Path, name: string)
    decreases dirs, 1
  {
    exists i :: 0 <= i < |nodes| && Holds(env, nodes[i], dirs, name)
  }

  ghost predicate Holds(env: Env, n: Node, dirs: Path, name: string)
    decreases dirs, 0
  {
    if dirs == [] then Tracked(env, n) && n.name == name
    else n.Folder? && n.name == dirs[0] && n.listing.Listed? && HasFile(env, n.listing.nodes, dirs[1..], name)
  }

  // What scanning a folder sees: the tracked files standing in folders below it
  // whose every component relativeDir accepts.
  lemma {:induction false} DirSees(env: Env, st: State, at: Path, nodes: seq<Node>, dirs: Path, name: string)
    ensures at + dirs + [name] in ScanDir(env, st, at, nodes).seen <==>
            at + dirs + [name] in st.seen || (HasFile(env, nodes, dirs, name) && Accepted(env.hidden, at, dirs))
    decreases nodes
  {
    if nodes != [] {
      var st1 := ScanEntry(env, st, at, nodes[0]);
      EntrySees(env, st, at, nodes[0], dirs, name);
      DirSees(env, st1, at, nodes[1..], dirs, name);
      HasFileStep(env, nodes, dirs, name);
    }
  }

  lemma HasFileStep(env: Env, nodes: seq<Node>, dirs: Path, name: string)
    requires nodes != []
    ensures HasFile(env, nodes, dirs, name) <==> Holds(env, nodes[0], dirs, name) || HasFile(env, nodes[1..], dirs, name)
  {
    var rest := nodes[1..];
    assert forall i :: 0 <= i < |rest| ==> rest[i] == nodes[i + 1];
    if i :| 0 < i < |nodes| && Holds(env, nodes[i], dirs, name) {
      assert rest[i - 1] == nodes[i];
    }
  }

  lemma NotBelow(at: Path, other: string, dirs: Path, name: string)
    requires dirs == [] || dirs[0] != other
    ensures !(at + [other] < at + dirs + [name])
  {
    assert (at + dirs + [name])[|at|] == if dirs == [] then name else dirs[0];
    assert (at + [other])[|at|] == other;
  }

  lemma {:induction false} EntrySees(env: Env, st: State, at: Path, n: Node, dirs: Path, name: string)
    ensures at + dirs + [name] in ScanEntry(env, st, at, n).seen <==>
            at + dirs + [name] in st.seen || (Holds(env, n, dirs, name) && Accepted(env.hidden, at, dirs))
    decreases n
  {
    var key, sub := at + dirs + [name], at + [n.name];
    if n.FileNode? {
      if key == sub { assert |dirs| == 0 && key[|at|] == name && sub[|at|] == n.name; }
      if dirs == [] { assert at + dirs == at; }
    } else if n.listing.Listed? {
      if dirs != [] && dirs[0] == n.name {
        AcceptedStep(env.hidden, at, dirs);
        assert sub + dirs[1..] + [name] == key;
        DirSees(env, st, sub, n.listing.nodes, dirs[1..], name);
      } else {
        NotBelow(at, n.name, dirs, name);
        OutsideUntouched(env, st, sub, n.listing.nodes, key);
      }
    } else if dirs != [] {
      AcceptedStep(env.hidden, at, dirs);
    }
  }

  // RelDir and the walk agree: a scan sees a tracked file standing in folder dirs
  // exactly when RelDir, given its path, answers dirs.
  lemma RelDirAgreesWithScan(env: Env, st: State, nodes: seq<Node>, dir: Path, dirs: Path, name: string)
    requires HasFile(env, nodes, dirs, name)
    ensures dirs + [name] in ScanDir(env, Fresh(st), [], nodes).seen <==>
            FolderOf(dir, dir + dirs + [name], env.hidden) == Some(dirs)
  {
    DirSees(env, Fresh(st), [], nodes, dirs, name);
    assert [] + dirs + [name] == dirs + [name];
    var path := dir + dirs + [name];
    assert path[|dir|..|path| - 1] == dirs;
  }

  // And it sees nothing else.
  lemma ScanSeesOnlyTracked(env: Env, st: State, nodes: seq<Node>, dirs: Path, name: string)
    requires dirs + [name] in ScanDir(env, Fresh(st), [], nodes).seen
    ensures HasFile(env, nodes, dirs, name) && dirs in Scanned(env.hidden, [], nodes)
  {
    DirSees(env, Fresh(st), [], nodes, dirs, name);
    assert [] + dirs + [name] == dirs + [name];
    FolderOfFile(env, nodes, dirs, name);
    WalkAgrees(env.hidden, [], nodes, dirs);
    assert [] + dirs == dirs;
  }

  lemma {:induction false} FolderOfFile(env: Env, nodes: seq<Node>, dirs: Path, name: string)
    requires HasFile(env, nodes, dirs, name)
    ensures HasFolder(nodes, dirs)
    decreases dirs
  {
    if dirs != [] {
      var i :| 0 <= i < |nodes| && Holds(env, nodes[i], dirs, name);
      FolderOfFile(env, nodes[i].listing.nodes, dirs[1..], name);
      assert LeadsTo(nodes[i], dirs);
    }
  }

  // --- The watcher itself -------------------------------------------------------------

  // The watcher's entries and the state of the scan under way, updated in place.
  class FolderWatcher {
    var entries: map<Path, Entry>
    var seen: set<Path>
    var unlisted: seq<Path>
    var toEmit: seq<File>
    var toReject: seq<File>
    ghost var pasts: map<Path, Past>

    ghost function View(): State
      reads this
    {
      State(entries, pasts, seen, unlisted, toEmit, toReject)
    }

    constructor ()
      ensures View() == EMPTY
    {
      entries, seen, unlisted, toEmit, toReject, pasts := map[], {}, [], [], [], map[];
    }

    // updateEntry, the checks that follow it, and settle.
    method Look(env: Env, key: Path, content: Content) returns (out: Outcome)
      modifies this`entries
      ensures (if key in entries then entries[key] else NEW_ENTRY, out)
           == Observe(EntryAt(old(View()), key), content, env.now, env.settle, env.valid(key), env.busy(key))
      ensures key in entries && entries == old(entries)[key := entries[key]]
    {
      var e := if key in entries then entries[key] else NEW_ENTRY;
      if e.content != content {
        e := e.(content := content, stableSince := env.now, stableScans := 1);
      } else {
        e := e.(stableScans := e.stableScans + 1);
      }
      entries := entries[key := e];
      if e.emitted == Some(e.content) || e.rejected == Some(e.content) {
        return Quiet;
      }
      if e.stableScans < 2 || env.now - e.stableSince < env.settle {
        return Quiet;
      }
      if !env.valid(key) {
        entries := entries[key := e.(rejected := Some(e.content))];
        return Refused(e.content);
      }
      if env.busy(key) {
        return Quiet;
      }
      entries := entries[key := e.(emitted := Some(e.content))];
      return Ready(e.content, e.emitted.Some?);
    }

    method LookAtFile(env: Env, key: Path, content: Content)
      modifies this
      ensures View() == ScanFile(env, old(View()), key, content)
    {
      seen := seen + {key};
      var out := Look(env, key, content);
      pasts := pasts[key := Remember(PastAt(old(View()), key), content, env.now, out)];
      match out
      case Quiet =>
      case Ready(_, changed) => toEmit := toEmit + [File(key, content, changed)];
      case Refused(_) => toReject := toReject + [File(key, content, false)];
    }

    method WalkDir(env: Env, at: Path, nodes: seq<Node>)
      modifies this
      ensures View() == ScanDir(env, old(View()), at, nodes)
      decreases nodes
    {
      for i := 0 to |nodes|
        invariant ScanDir(env, View(), at, nodes[i..]) == ScanDir(env, old(View()), at, nodes)
      {
        assert nodes[i..] != [] && nodes[i..][0] == nodes[i] && nodes[i..][1..] == nodes[i + 1..];
        match nodes[i]
        case FileNode(name, stat) =>
          if env.candidate(name) {
            match stat
            case Unknown => seen := seen + {at + [name]};
            case Irregular =>
            case Regular(size, modTime) => LookAtFile(env, at + [name], Content(size, modTime));
          }
        case Folder(name, listing) =>
          if Enters(env.hidden, at, name) {
            match listing
            case Unlistable => unlisted := unlisted + [at + [name]];
            case Listed(sub) => WalkDir(env, at + [name], sub);
          }
      }
    }

    method ForgetVanished()
      modifies this`entries, this`pasts
      ensures View() == Forget(old(View()))
    {
      ghost var before := View();
      var todo := entries.Keys;
      while todo != {}
        invariant todo <= before.entries.Keys
        invariant entries == map k | k in before.entries && (k in todo || Remains(before, k)) :: before.entries[k]
        invariant seen == before.seen && unlisted == before.unlisted && pasts == before.pasts
        decreases |todo|
      {
        var k :| k in todo;
        todo := todo - {k};
        if k !in seen && !UnderAny(k, unlisted) {
          entries := entries - {k};
        }
      }
      pasts := map k | k in pasts && Remains(before, k) :: pasts[k];
      assert entries == Forget(before).entries && pasts == Forget(before).pasts;
    }

    method ScanOnce(env: Env, listing: Listing)
      modifies this
      ensures View() == Scan(env, old(View()), listing)
    {
      seen, unlisted, toEmit, toReject := {}, [], [], [];
      match listing
      case Unlistable =>
      case Listed(nodes) =>
        WalkDir(env, [], nodes);
        ForgetVanished();
    }
  }
}
