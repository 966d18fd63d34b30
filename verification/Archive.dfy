// Filing sent files away (internal/engine/archive.go): a retry loop and a search
// for a free backup name, on a file system whose calls may fail at will.
module Archive {
  import opened Bytes
  import opened Decimals
  import opened UploadQueue

  datatype File = File(data: Text, modTime: int)

  type Files = map<string, File>

  datatype StatResult = Found(size: int, modTime: int) | Absent | Inconclusive

  function Renamed(files: Files, from: string, to: string): Files
    requires from in files
  {
    (files - {from})[to := files[from]]
  }

  // The files, and how many more Stat calls will give no clear answer.
  class Disk {
    var files: Files
    var faults: nat
    ghost var overwritten: set<string> // paths a rename has replaced a file at
    ghost var failed: nat              // calls that have failed

    constructor (files: Files, faults: nat)
      ensures this.files == files && this.faults == faults && overwritten == {} && failed == 0
    {
      this.files, this.faults, overwritten, failed := files, faults, {}, 0;
    }

    method Stat(path: string) returns (r: StatResult)
      modifies this`faults, this`failed
      ensures if r.Inconclusive? then old(faults) > 0 && faults == old(faults) - 1 && failed == old(failed) + 1
              else faults == old(faults) && failed == old(failed)
      ensures r.Found? ==> path in files && r == Found(|files[path].data|, files[path].modTime)
      ensures r.Absent? ==> path !in files
    {
      var fails: bool := *;
      if fails && faults > 0 {
        faults, failed := faults - 1, failed + 1;
        r := Inconclusive;
      } else {
        r := if path in files then Found(|files[path].data|, files[path].modTime) else Absent;
      }
    }

    method MkdirAll(path: string) returns (ok: bool)
      modifies this`failed
      ensures failed == if ok then old(failed) else old(failed) + 1
    {
      ok := *;
      if !ok {
        failed := failed + 1;
      }
    }

    method Rename(from: string, to: string) returns (ok: bool)
      modifies this`files, this`overwritten, this`failed
      ensures ok ==> from in old(files) && files == Renamed(old(files), from, to) && failed == old(failed)
      ensures !ok ==> files == old(files) && failed == old(failed) + 1
      ensures overwritten == if ok && to in old(files) && to != from then old(overwritten) + {to} else old(overwritten)
    {
      ok := *;
      if !ok || from !in files {
        failed := failed + 1;
        return false;
      }
      if to in files && to != from {
        overwritten := overwritten + {to};
      }
      files := Renamed(files, from, to);
    }
  }

  // --- Backup names ------------------------------------------------------------

  // filepath.Ext: from the last dot of the last element.
  function Ext(path: string): (e: string)
    ensures |e| <= |path| && e == path[|path| - |e|..] && SEPARATOR !in e
  {
    ExtFrom(path, |path|)
  }

  function ExtFrom(path: string, i: nat): (e: string)
    requires i <= |path| && SEPARATOR !in path[i..]
    ensures |e| <= |path| && e == path[|path| - |e|..] && SEPARATOR !in e
  {
    if i == 0 || path[i - 1] == SEPARATOR then ""
    else if path[i - 1] == '.' then path[i - 1..]
    else ExtFrom(path, i - 1)
  }

  function Stem(path: string): (s: string)
    ensures s + Ext(path) == path
  {
    path[..|path| - |Ext(path)|]
  }

  // The n-th name uniqueBackupName tries.
  function BackupName(dest: string, stamp: string, n: nat): string {
    Stem(dest) + "." + stamp + (if n == 0 then "" else "-" + Decimal(n)) + Ext(dest)
  }

  ghost predicate IsBackup(dest: string, stamp: string, name: string) {
    exists n: nat :: name == BackupName(dest, stamp, n)
  }

  // The extension is the rest of the last element from its last dot on, and empty
  // if that has no dot.
  lemma {:induction false} ExtExact(path: string, i: nat)
    requires i <= |path| && SEPARATOR !in path[i..]
    ensures var e := ExtFrom(path, i);
            && (e != "" ==> e[0] == '.' && |path| - |e| < i && forall k :: |path| - |e| < k < i ==> path[k] != '.')
            && (e == "" ==> forall k :: 0 <= k < i && path[k] == '.' ==> SEPARATOR in path[k..])
    decreases i
  {
    if i > 0 && path[i - 1] != SEPARATOR && path[i - 1] != '.' {
      assert path[i - 1..] == [path[i - 1]] + path[i..];
      ExtExact(path, i - 1);
    } else if i > 0 && path[i - 1] == SEPARATOR {
      forall k | 0 <= k < i && path[k] == '.' ensures SEPARATOR in path[k..] {
        assert path[k..][i - 1 - k] == SEPARATOR;
      }
    }
  }

  // Only one suffix is the rest from the last dot of the last element.
  lemma ExtIs(path: string, e: string)
    requires e != "" && |e| <= |path| && e == path[|path| - |e|..] && SEPARATOR !in e
    requires e[0] == '.' && forall k :: 0 < k < |e| ==> e[k] != '.'
    ensures Ext(path) == e
  {
    ExtExact(path, |path|);
    var d, a := Ext(path), |path| - |e|;
    assert path[a] == '.' && path[a..] == e;
    assert forall k :: a < k < |path| ==> path[k] == e[k - a];
    if d != "" { assert path[|path| - |d|] == '.'; }
  }

  // A backup is the same kind of file: its name keeps the extension, after the
  // time stamp.
  lemma BackupKeepsExtension(dest: string, stamp: string, n: nat)
    requires Ext(dest) != ""
    ensures Ext(BackupName(dest, stamp, n)) == Ext(dest)
    ensures var b, stem := BackupName(dest, stamp, n), dest[..|dest| - |Ext(dest)|];
            b == stem + "." + stamp + (if n == 0 then "" else "-" + Decimal(n)) + Ext(dest)
  {
    var e, b := Ext(dest), BackupName(dest, stamp, n);
    ExtExact(dest, |dest|);
    forall k | 0 < k < |e| ensures e[k] != '.' { assert e[k] == dest[|dest| - |e| + k]; }
    assert b[|b| - |e|..] == e;
    ExtIs(b, e);
  }

  lemma BackupNamesDiffer(dest: string, stamp: string, m: nat, n: nat)
    requires BackupName(dest, stamp, m) == BackupName(dest, stamp, n)
    ensures m == n
  {
    var head, tail := Stem(dest) + "." + stamp, Ext(dest);
    var a, b := (if m == 0 then "" else "-" + Decimal(m)), (if n == 0 then "" else "-" + Decimal(n));
    var p := BackupName(dest, stamp, m);
    assert p == head + a + tail && p == head + b + tail;
    assert |a| == |b|;
    assert a == p[|head|..|head| + |a|] && b == p[|head|..|head| + |b|];
    if m != 0 && n != 0 {
      assert Decimal(m) == a[1..] && Decimal(n) == b[1..];
      DecimalInjective(m, n);
    }
  }

  lemma {:induction false} SubsetSmaller<T>(a: set<T>, b: set<T>)
    requires a <= b
    ensures |a| <= |b|
    decreases |a|
  {
    if a != {} {
      var x :| x in a;
      SubsetSmaller(a - {x}, b - {x});
    }
  }

  // The first of the candidates that is not taken.
  ghost predicate FirstFree(files: Files, dest: string, stamp: string, name: string) {
    exists n: nat ::
      && name == BackupName(dest, stamp, n) && name !in files
      && forall m: nat :: m < n ==> BackupName(dest, stamp, m) in files
  }

  // These are among the first n candidates, and taken.
  ghost predicate Tried<K(!new)>(all: set<K>, candidate: nat -> K, n: nat, tried: set<K>) {
    && tried <= all && |tried| <= |all|
    && forall p :: p in tried ==> exists m: nat :: m < n && p == candidate(m)
  }

  ghost predicate AllTaken<K(!new)>(all: set<K>, candidate: nat -> K, n: nat) {
    forall m: nat :: m < n ==> candidate(m) in all
  }

  ghost predicate Injective<K(!new)>(candidate: nat -> K) {
    forall m: nat, n: nat :: candidate(m) == candidate(n) ==> m == n
  }

  // The search has come to candidate n; clear: every answer so far was clear.
  ghost predicate Searching<K(!new)>(all: set<K>, candidate: nat -> K, n: nat, tried: set<K>, clear: bool) {
    Tried(all, candidate, n, tried) && (clear ==> AllTaken(all, candidate, n))
  }

  lemma SearchGoesOn<K(!new)>(all: set<K>, candidate: nat -> K, n: nat, tried: set<K>, clear: bool)
    requires Injective(candidate) && Searching(all, candidate, n, tried, clear)
    ensures Searching(all, candidate, n + 1, tried, false)
    ensures candidate(n) in all ==>
              var more := tried + {candidate(n)};
              Searching(all, candidate, n + 1, more, clear) && |more| == |tried| + 1
  {
    if candidate(n) in all { SubsetSmaller(tried + {candidate(n)}, all); }
  }

  ghost function Candidates(dest: string, stamp: string): nat -> string {
    (n: nat) => BackupName(dest, stamp, n)
  }

  lemma CandidatesDiffer(dest: string, stamp: string)
    ensures Injective(Candidates(dest, stamp))
  {
    forall m: nat, n: nat | BackupName(dest, stamp, m) == BackupName(dest, stamp, n) ensures m == n {
      BackupNamesDiffer(dest, stamp, m, n);
    }
  }

  lemma SearchEnds(files: Files, dest: string, stamp: string, n: nat, clear: bool)
    requires clear ==> AllTaken(files.Keys, Candidates(dest, stamp), n)
    requires Candidates(dest, stamp)(n) !in files
    ensures IsBackup(dest, stamp, BackupName(dest, stamp, n))
    ensures clear ==> FirstFree(files, dest, stamp, BackupName(dest, stamp, n))
  {
    if clear {
      forall m: nat | m < n ensures BackupName(dest, stamp, m) in files {
        assert Candidates(dest, stamp)(m) in files.Keys;
      }
    }
  }

  // With finitely many files and finitely many unclear answers it ends, at a
  // free name; at the first, if every answer is clear.
  method UniqueBackupName(disk: Disk, dest: string, stamp: string) returns (name: string)
    modifies disk`faults, disk`failed
    ensures disk.failed >= old(disk.failed)
    ensures name !in disk.files && IsBackup(dest, stamp, name)
    ensures disk.failed == old(disk.failed) ==> FirstFree(disk.files, dest, stamp, name)
  {
    name := BackupName(dest, stamp, 0);
    var n: nat := 1;
    ghost var tried: set<string>, candidate := {}, Candidates(dest, stamp);
    CandidatesDiffer(dest, stamp);
    while true
      invariant n >= 1 && name == candidate(n - 1) && disk.failed >= old(disk.failed)
      invariant Searching(disk.files.Keys, candidate, n - 1, tried, disk.failed == old(disk.failed))
      decreases |disk.files.Keys| - |tried| + disk.faults
    {
      SearchGoesOn(disk.files.Keys, candidate, n - 1, tried, disk.failed == old(disk.failed));
      var r := disk.Stat(name);
      if r.Absent? {
        SearchEnds(disk.files, dest, stamp, n - 1, disk.failed == old(disk.failed));
        return;
      }
      if r.Found? {
        tried := tried + {name};
      }
      name := BackupName(dest, stamp, n);
      n := n + 1;
    }
  }

  // --- The sent folder -----------------------------------------------------------

  const SENT_DIR := "sent"

  function SentDir(root: string, dir: string): string {
    root + [SEPARATOR] + SENT_DIR + (if dir == "" then "" else [SEPARATOR] + dir)
  }

  function Dest(root: string, dir: string, base: string): string {
    SentDir(root, dir) + [SEPARATOR] + base
  }

  function DestOf(src: Source): string {
    Dest(src.root, src.dir, src.base)
  }

  predicate InSent(root: string, path: string) {
    var prefix := root + [SEPARATOR] + SENT_DIR + [SEPARATOR];
    prefix <= path
  }

  lemma DestInSent(root: string, dir: string, base: string)
    ensures InSent(root, Dest(root, dir, base))
  {
    var prefix := root + [SEPARATOR] + SENT_DIR + [SEPARATOR];
    var rest := if dir == "" then base else dir + [SEPARATOR] + base;
    assert Dest(root, dir, base) == prefix + rest;
  }

  lemma BackupInSent(root: string, dir: string, base: string, stamp: string, n: nat)
    requires SEPARATOR !in base
    ensures InSent(root, BackupName(Dest(root, dir, base), stamp, n))
  {
    var dest := Dest(root, dir, base);
    DestInSent(root, dir, base);
    var folder := SentDir(root, dir) + [SEPARATOR];
    assert dest == folder + base;
    StemKeepsFolder(folder, base);
    var prefix := root + [SEPARATOR] + SENT_DIR + [SEPARATOR];
    assert prefix <= folder;
    assert folder <= Stem(dest) <= BackupName(dest, stamp, n);
  }

  // The extension is part of the base name.
  lemma StemKeepsFolder(folder: string, base: string)
    requires folder != "" && folder[|folder| - 1] == SEPARATOR
    ensures folder <= Stem(folder + base)
  {
    var p := folder + base;
    var e := Ext(p);
    assert forall i :: |p| - |e| <= i < |p| ==> p[i] in e;
    assert p[|folder| - 1] == SEPARATOR;
    assert p[..|p| - |e|] == folder + base[..|base| - |e|];
  }

  // Every file kept in sent/ before is in sent/ after, unaltered, in a place of
  // its own: where[p] tells where.
  predicate Carries<K(!new), V(==)>(where: map<K, K>, sent: K -> bool, a: map<K, V>, b: map<K, V>) {
    && (forall p :: p in a && sent(p) ==> p in where)
    && (forall p :: p in where ==> p in a && where[p] in b && sent(where[p]) && b[where[p]] == a[p])
    && (forall p, r :: p in where && r in where && where[p] == where[r] ==> p == r)
  }

  ghost predicate Preserves<K(!new), V>(sent: K -> bool, a: map<K, V>, b: map<K, V>) {
    exists where :: Carries(where, sent, a, b)
  }

  lemma PreservesSame<K(!new), V>(sent: K -> bool, a: map<K, V>, b: map<K, V>)
    requires forall p :: p in a && sent(p) ==> p in b && b[p] == a[p]
    ensures Preserves(sent, a, b)
  {
    assert Carries(map p | p in a && sent(p) :: p, sent, a, b);
  }

  lemma PreservesTransitive<K(!new), V>(sent: K -> bool, a: map<K, V>, b: map<K, V>, c: map<K, V>)
    requires Preserves(sent, a, b) && Preserves(sent, b, c)
    ensures Preserves(sent, a, c)
  {
    var first :| Carries(first, sent, a, b);
    var second :| Carries(second, sent, b, c);
    assert Carries(map p | p in first :: second[first[p]], sent, a, c);
  }

  lemma RenamePreserves<K(!new), V>(sent: K -> bool, a: map<K, V>, from: K, to: K)
    requires from in a && to !in a && (sent(from) ==> sent(to))
    ensures Preserves(sent, a, (a - {from})[to := a[from]])
  {
    var b := (a - {from})[to := a[from]];
    assert Carries(map p | p in a && sent(p) :: if p == from then to else p, sent, a, b);
  }

  // A rename to a free place loses something kept exactly if it takes it out of
  // the place it is kept in.
  lemma RenamePreservesIff<K(!new), V>(sent: K -> bool, a: map<K, V>, from: K, to: K)
    requires from in a && to !in a
    ensures Preserves(sent, a, (a - {from})[to := a[from]]) <==> (sent(from) ==> sent(to))
  {
    var b := (a - {from})[to := a[from]];
    if sent(from) && !sent(to) {
      FewerPlaces(sent, a, b, from);
      if Preserves(sent, a, b) { PreservesCounts(sent, a, b); }
    } else {
      RenamePreserves(sent, a, from, to);
    }
  }

  function Places<K, V>(sent: K -> bool, m: map<K, V>): set<K> {
    set p | p in m && sent(p)
  }

  predicate Injects<K(!new)>(where: map<K, K>, s: set<K>, t: set<K>) {
    && (forall p :: p in s ==> p in where && where[p] in t)
    && (forall p, r :: p in s && r in s && where[p] == where[r] ==> p == r)
  }

  lemma CarriesInjects<K(!new), V>(where: map<K, K>, sent: K -> bool, a: map<K, V>, b: map<K, V>)
    requires Carries(where, sent, a, b)
    ensures Injects(where, Places(sent, a), Places(sent, b))
  {
  }

  lemma {:induction false} Pigeonhole<K(!new)>(where: map<K, K>, s: set<K>, t: set<K>)
    requires Injects(where, s, t)
    ensures |s| <= |t|
    decreases |s|
  {
    if s != {} {
      var p :| p in s;
      Pigeonhole(where, s - {p}, t - {where[p]});
    }
  }

  lemma PreservesCounts<K(!new), V>(sent: K -> bool, a: map<K, V>, b: map<K, V>)
    requires Preserves(sent, a, b)
    ensures |Places(sent, a)| <= |Places(sent, b)|
  {
    var where :| Carries(where, sent, a, b);
    CarriesInjects(where, sent, a, b);
    Pigeonhole(where, Places(sent, a), Places(sent, b));
  }

  lemma FewerPlaces<K(!new), V>(sent: K -> bool, a: map<K, V>, b: map<K, V>, from: K)
    requires from in a && sent(from) && from !in b && forall p :: p in b && sent(p) ==> p in a
    ensures |Places(sent, b)| < |Places(sent, a)|
  {
    SubsetSmaller(Places(sent, b), Places(sent, a) - {from});
  }

  // Whether a path is in the sent folder of one of these roots.
  function Inside(roots: set<string>): string -> bool {
    p => exists r :: r in roots && InSent(r, p)
  }

  // One folder's sent folder alone need not be complete: a root above it walks
  // into it, as into any folder but its own sent, and archives what it finds there
  // elsewhere.
  lemma NestedRootTakesOut(a: Files, src: Source)
    requires src.root == "B" && src.dir == "A\\sent" && src.base == "x" && src.path == "B\\A\\sent\\x"
    requires src.path in a && DestOf(src) !in a
    ensures !Preserves(Inside({"B\\A"}), a, Renamed(a, src.path, DestOf(src)))
  {
    assert InSent("B\\A", src.path);
    assert DestOf(src) == "B\\sent\\A\\sent\\x";
    assert DestOf(src)[2] != 'A';
    RenamePreservesIff(Inside({"B\\A"}), a, src.path, DestOf(src));
  }

  // Steps that each lose nothing lose nothing together.
  lemma {:induction false} CompleteHistory<K(!new), V>(sent: K -> bool, history: seq<map<K, V>>, i: nat, j: nat)
    requires i <= j < |history|
    requires forall k :: 0 < k < |history| ==> Preserves(sent, history[k - 1], history[k])
    ensures Preserves(sent, history[i], history[j])
    decreases j
  {
    if i == j {
      PreservesSame(sent, history[i], history[j]);
    } else {
      CompleteHistory(sent, history, i, j - 1);
      PreservesTransitive(sent, history[i], history[j - 1], history[j]);
    }
  }

  // The file sent is at its destination, and no longer where it was.
  predicate Filed(a: Files, b: Files, path: string, dest: string) {
    path in a && path != dest && path !in b && dest in b && b[dest] == a[path]
  }

  // Every file there was, but for the one at dest, is where it was.
  predicate OnlyMoves(a: Files, b: Files, dest: string) {
    forall p :: p in a && p != dest ==> p in b && b[p] == a[p]
  }

  lemma BackupPlace(root: string, dir: string, base: string, stamp: string, backup: string)
    requires SEPARATOR !in base && IsBackup(Dest(root, dir, base), stamp, backup)
    ensures InSent(root, backup) && backup != Dest(root, dir, base)
  {
    var dest := Dest(root, dir, base);
    var n: nat :| backup == BackupName(dest, stamp, n);
    BackupInSent(root, dir, base, stamp, n);
    assert |backup| > |Stem(dest)| + |Ext(dest)| == |Stem(dest) + Ext(dest)|;
  }

  // The places a send to dest may rename to are all in the folder it keeps.
  ghost predicate Keeps(sent: string -> bool, dest: string, stamp: string) {
    sent(dest) && forall b :: IsBackup(dest, stamp, b) ==> sent(b) && b != dest
  }

  lemma SentKeeps(roots: set<string>, root: string, dir: string, base: string, stamp: string)
    requires SEPARATOR !in base && root in roots
    ensures Keeps(Inside(roots), Dest(root, dir, base), stamp)
  {
    DestInSent(root, dir, base);
    forall b | IsBackup(Dest(root, dir, base), stamp, b) ensures InSent(root, b) && b != Dest(root, dir, base) {
      BackupPlace(root, dir, base, stamp, b);
    }
  }

  // Nothing kept in sent/ differs.
  predicate SameInside(sent: string -> bool, a: Files, b: Files) {
    && (forall p :: p in a && sent(p) ==> p in b && b[p] == a[p])
    && (forall p :: p in b && sent(p) ==> p in a)
  }

  // What a relation between file systems needs so that renames to free places in
  // sent/, and whatever others do outside it, respect it, one after another.
  ghost predicate Closed(rel: (Files, Files) -> bool, sent: string -> bool) {
    && (forall a :: rel(a, a))
    && (forall a, b, c :: rel(a, b) && rel(b, c) ==> rel(a, c))
    && (forall a, b :: SameInside(sent, a, b) ==> rel(a, b))
    && (forall a, from, to :: from in a && to !in a && (sent(from) ==> sent(to)) ==> rel(a, Renamed(a, from, to)))
  }

  ghost function Completely(roots: set<string>): (Files, Files) -> bool {
    (a, b) => Preserves(Inside(roots), a, b)
  }

  lemma KeptClosed(roots: set<string>)
    ensures Closed(Completely(roots), Inside(roots))
  {
    var sent := Inside(roots);
    forall a: Files ensures Completely(roots)(a, a) { PreservesSame(sent, a, a); }
    forall a, b, c | Completely(roots)(a, b) && Completely(roots)(b, c) ensures Completely(roots)(a, c) {
      PreservesTransitive(sent, a, b, c);
    }
    forall a, b | SameInside(sent, a, b) ensures Completely(roots)(a, b) { PreservesSame(sent, a, b); }
    forall a: Files, from, to | from in a && to !in a && (sent(from) ==> sent(to))
      ensures Completely(roots)(a, Renamed(a, from, to))
    {
      RenamePreserves(sent, a, from, to);
    }
  }

  // Leave nothing at dest: a file that may be there is renamed aside.
  method SetAside(disk: Disk, dest: string, stamp: string, ghost sent: string -> bool, ghost rel: (Files, Files) -> bool)
    returns (ok: bool)
    requires Keeps(sent, dest, stamp) && Closed(rel, sent)
    modifies disk
    ensures disk.overwritten == old(disk.overwritten)
    ensures rel(old(disk.files), disk.files) && OnlyMoves(old(disk.files), disk.files, dest)
    ensures if ok then dest !in disk.files else disk.files == old(disk.files) && disk.failed > old(disk.failed)
    ensures disk.failed >= old(disk.failed)
  {
    ok := true;
    var r := disk.Stat(dest);
    if !r.Absent? {
      var backup := UniqueBackupName(disk, dest, stamp);
      ok := disk.Rename(dest, backup);
    }
  }

  // One attempt of the move.
  method MoveIntoSent(disk: Disk, sentDir: string, dest: string, path: string, stamp: string,
                      ghost sent: string -> bool, ghost rel: (Files, Files) -> bool)
    returns (ok: bool)
    requires Keeps(sent, dest, stamp) && Closed(rel, sent) && path in disk.files
    modifies disk
    ensures disk.overwritten == old(disk.overwritten)
    ensures rel(old(disk.files), disk.files)
    ensures if ok then Filed(old(disk.files), disk.files, path, dest)
            else OnlyMoves(old(disk.files), disk.files, dest) && disk.failed > old(disk.failed)
    ensures disk.failed >= old(disk.failed)
  {
    ok := disk.MkdirAll(sentDir);
    if ok {
      ok := SetAside(disk, dest, stamp, sent, rel);
      if ok {
        ok := disk.Rename(path, dest);
      }
    }
  }

  // --- The retry loop ---------------------------------------------------------------

  datatype Outcome = Stopped | ChangedSince | Archived | NotMoved

  // The file on disk is the one that was sent.
  predicate IsSource(files: Files, src: Source) {
    src.path in files && |files[src.path].data| == src.size && files[src.path].modTime == src.modTime
  }

  // One round of the loop: the item has been looked at, and did not stop it.
  method Attempt(disk: Disk, src: Source, sentDir: string, dest: string, stamp: string,
                 ghost sent: string -> bool, ghost rel: (Files, Files) -> bool)
    returns (outcome: Outcome)
    requires Keeps(sent, dest, stamp) && Closed(rel, sent)
    modifies disk
    ensures disk.overwritten == old(disk.overwritten) && !outcome.Stopped?
    ensures rel(old(disk.files), disk.files)
    ensures outcome.Archived? ==> IsSource(old(disk.files), src) && Filed(old(disk.files), disk.files, src.path, dest)
    ensures !outcome.Archived? ==> OnlyMoves(old(disk.files), disk.files, dest)
    ensures outcome.ChangedSince? ==> src.path in disk.files && !IsSource(disk.files, src)
    ensures outcome.NotMoved? ==> disk.failed > old(disk.failed) || src.path !in old(disk.files)
    ensures disk.failed >= old(disk.failed)
  {
    var r := disk.Stat(src.path);
    match r
    case Found(size, modTime) =>
      if size != src.size || modTime != src.modTime {
        outcome := ChangedSince;
      } else {
        var ok := MoveIntoSent(disk, sentDir, dest, src.path, stamp, sent, rel);
        outcome := if ok then Archived else NotMoved;
      }
    case _ => outcome := NotMoved;
  }

  // Between attempts others may do as they like outside sent/.
  method OthersAct(disk: Disk, sent: string -> bool)
    modifies disk`files
    ensures SameInside(sent, old(disk.files), disk.files)
  {
    assert SameInside(sent, disk.files, disk.files);
    var files: Files :| SameInside(sent, disk.files, files);
    disk.files := files;
  }

  // stops[k]: what the item says at the k-th check; stamps[k]: the time then;
  // interrupted[k]: shutdown cuts short the wait before attempt k.
  method Attempts(disk: Disk, src: Source, sentDir: string, dest: string, retries: nat,
                  stops: nat -> bool, stamps: nat -> string, interrupted: nat -> bool,
                  sent: string -> bool, ghost rel: (Files, Files) -> bool)
    returns (outcome: Outcome, last: nat, ghost before: Files)
    requires Closed(rel, sent) && forall k: nat :: Keeps(sent, dest, stamps(k))
    modifies disk
    ensures disk.overwritten == old(disk.overwritten) && last <= retries
    ensures rel(old(disk.files), disk.files)
    ensures (forall k: nat :: k < last ==> !stops(k)) && (outcome.Stopped? ==> stops(last))
    ensures outcome.Archived? || outcome.ChangedSince? ==> !stops(last)
    ensures outcome.Archived? ==> IsSource(before, src) && Filed(before, disk.files, src.path, dest)
    ensures !outcome.Archived? ==> OnlyMoves(before, disk.files, dest)
    ensures outcome.NotMoved? ==> !stops(last) && (last == retries || interrupted(last + 1))
    ensures outcome.NotMoved? ==> disk.failed > old(disk.failed) || src.path !in before
  {
    before := disk.files;
    outcome, last := NotMoved, 0;
    for attempt := 0 to retries + 1
      invariant disk.overwritten == old(disk.overwritten) && rel(old(disk.files), disk.files)
      invariant OnlyMoves(before, disk.files, dest) && outcome == NotMoved
      invariant forall k: nat :: k < attempt ==> !stops(k)
      invariant last == if attempt == 0 then 0 else attempt - 1
      invariant disk.failed >= old(disk.failed)
      invariant attempt > 0 ==> disk.failed > old(disk.failed) || src.path !in before
    {
      if attempt > 0 {
        if interrupted(attempt) {
          return;
        }
        OthersAct(disk, sent);
      }
      last, before := attempt, disk.files;
      if stops(attempt) {
        outcome := Stopped;
        return;
      }
      outcome := Attempt(disk, src, sentDir, dest, stamps(attempt), sent, rel);
      if !outcome.NotMoved? {
        return;
      }
    }
  }

  // However the calls fail and whatever others do meanwhile: nothing in the sent
  // folder of any of the roots is lost or overwritten, and if the outcome is
  // Archived the file moved was exactly the one sent, neither stopped by a manual
  // send nor newer by report.
  method ArchiveSent(disk: Disk, roots: set<string>, src: Source, retries: nat,
                     stops: nat -> bool, stamps: nat -> string, interrupted: nat -> bool)
    returns (outcome: Outcome, last: nat, ghost before: Files)
    requires SEPARATOR !in src.base && src.root in roots
    modifies disk
    ensures disk.overwritten == old(disk.overwritten) && last <= retries
    ensures Preserves(Inside(roots), old(disk.files), disk.files)
    ensures (forall k: nat :: k < last ==> !stops(k)) && (outcome.Stopped? <==> stops(last))
    ensures outcome.Archived? ==> IsSource(before, src) && Filed(before, disk.files, src.path, DestOf(src))
    ensures !outcome.Archived? ==> OnlyMoves(before, disk.files, DestOf(src))
    ensures outcome.NotMoved? ==> last == retries || interrupted(last + 1)
    ensures outcome.NotMoved? ==> disk.failed > old(disk.failed) || src.path !in before
  {
    KeptClosed(roots);
    forall k: nat ensures Keeps(Inside(roots), DestOf(src), stamps(k)) {
      SentKeeps(roots, src.root, src.dir, src.base, stamps(k));
    }
    ghost var rel := Completely(roots);
    assert Closed(rel, Inside(roots));
    outcome, last, before := Attempts(disk, src, SentDir(src.root, src.dir), DestOf(src), retries,
                                      stops, stamps, interrupted, Inside(roots), rel);
    assert rel(old(disk.files), disk.files);
  }

  // --- Every send -----------------------------------------------------------------

  // One send to archive, and what it meets.
  datatype Send = Send(src: Source, stops: nat -> bool, stamps: nat -> string, interrupted: nat -> bool)

  // Any sends, from any of the roots watched over time, whatever fails in them and
  // whatever others do outside sent/ before, during and after them. history is the
  // disk at the beginning and around every send.
  method ArchiveAll(disk: Disk, roots: set<string>, sends: seq<Send>, retries: nat) returns (ghost history: seq<Files>)
    requires forall k :: 0 <= k < |sends| ==> SEPARATOR !in sends[k].src.base && sends[k].src.root in roots
    modifies disk
    ensures disk.overwritten == old(disk.overwritten)
    ensures |history| == 2 * |sends| + 1 && history[0] == old(disk.files) && history[2 * |sends|] == disk.files
    ensures forall i, j :: 0 <= i <= j < |history| ==> Preserves(Inside(roots), history[i], history[j])
  {
    history := [disk.files];
    for k := 0 to |sends|
      invariant disk.overwritten == old(disk.overwritten)
      invariant |history| == 2 * k + 1 && history[0] == old(disk.files) && history[2 * k] == disk.files
      invariant forall i :: 0 < i < |history| ==> Preserves(Inside(roots), history[i - 1], history[i])
    {
      OthersAct(disk, Inside(roots));
      PreservesSame(Inside(roots), history[2 * k], disk.files);
      history := history + [disk.files];
      var send := sends[k];
      var outcome, last, before :=
        ArchiveSent(disk, roots, send.src, retries, send.stops, send.stamps, send.interrupted);
      history := history + [disk.files];
    }
    forall i, j | 0 <= i <= j < |history| ensures Preserves(Inside(roots), history[i], history[j]) {
      CompleteHistory(Inside(roots), history, i, j);
    }
  }
}
