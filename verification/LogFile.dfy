// The rotating log (internal/logfile/logfile.go). The disk maps a number to a
// file: 0 is the active one, Path, and n the generation Path.n. Every file
// operation may fail.
module LogFile {
  import opened Bytes
  import opened Decimals

  type Disk = map<nat, Text>

  // Different numbers are different names.
  function Generation(path: string, n: nat): string {
    if n == 0 then path else path + "." + Decimal(n)
  }

  lemma GenerationsDiffer(path: string, m: nat, n: nat)
    requires Generation(path, m) == Generation(path, n)
    ensures m == n
  {
    var p := Generation(path, m);
    var a, b := (if m == 0 then "" else "." + Decimal(m)), (if n == 0 then "" else "." + Decimal(n));
    assert p == path + a && p == path + b;
    assert a == p[|path|..] && b == p[|path|..];
    if m != 0 && n != 0 {
      assert Decimal(m) == a[1..] && Decimal(n) == b[1..];
      DecimalInjective(m, n);
    }
  }

  // --- Disks -----------------------------------------------------------------------

  function At(d: Disk, n: nat): Text {
    if n in d then d[n] else []
  }

  // The generations from n down to 1, then the active file: oldest text first.
  function Joined(d: Disk, n: nat): Text {
    if n == 0 then At(d, 0) else At(d, n) + Joined(d, n - 1)
  }

  function Move(d: Disk, from: nat, to: nat): Disk {
    if from in d then (d - {from})[to := d[from]] else d
  }

  // Each of the generations i..keep-1 moved up by one, the oldest first.
  function Shifted(d: Disk, i: nat, keep: nat): Disk
    requires i <= keep
    decreases keep - i
  {
    if i == keep then d else Move(Shifted(d, i + 1, keep), i, i + 1)
  }

  predicate IsSuffix(a: Text, b: Text) {
    |a| <= |b| && b[|b| - |a|..] == a
  }

  lemma SuffixTransitive(a: Text, b: Text, c: Text)
    requires IsSuffix(a, b) && IsSuffix(b, c)
    ensures IsSuffix(a, c)
  {
    assert c[|c| - |a|..] == c[|c| - |b|..][|b| - |a|..];
  }

  lemma SuffixGrows(a: Text, b: Text, p: Text)
    requires IsSuffix(a, b)
    ensures IsSuffix(a + p, b + p)
  {
    assert (b + p)[|b + p| - |a + p|..] == b[|b| - |a|..] + p;
  }

  // Generation j + 1 afterwards is generation j before, holes included.
  lemma {:induction false} ShiftedAt(d: Disk, i: nat, keep: nat, j: nat)
    requires 1 <= i <= keep
    ensures j < i || j > keep ==> (j in Shifted(d, i, keep) <==> j in d) && At(Shifted(d, i, keep), j) == At(d, j)
    ensures j == i && i < keep ==> j !in Shifted(d, i, keep)
    ensures i < j <= keep && (j - 1 in d || j < keep || keep !in d) ==>
              (j in Shifted(d, i, keep) <==> j - 1 in d) && At(Shifted(d, i, keep), j) == At(d, j - 1)
    ensures i < j == keep && j - 1 !in d ==> At(Shifted(d, i, keep), j) == At(d, j)
    decreases keep - i
  {
    if i < keep {
      ShiftedAt(d, i + 1, keep, j);
      ShiftedAt(d, i + 1, keep, i);
      ShiftedAt(d, i + 1, keep, i + 1);
    }
  }

  // The text kept after a rotation whose generations all moved: f differs from
  // the disk g before it in that generation j holds what j - 1 held, and the
  // first generation and the active file together hold the active file's text.
  lemma {:induction false} JoinedMoved(f: Disk, g: Disk, k: nat)
    requires k >= 1 && At(f, 1) + At(f, 0) == At(g, 0)
    requires forall j :: 2 <= j <= k ==> At(f, j) == At(g, j - 1)
    ensures Joined(f, k) == Joined(g, k - 1)
    decreases k
  {
    if k == 1 {
      assert Joined(f, 1) == At(f, 1) + At(f, 0);
    } else {
      JoinedMoved(f, g, k - 1);
      assert At(f, k) == At(g, k - 1);
    }
  }

  lemma {:induction false} JoinedSame(f: Disk, g: Disk, k: nat)
    requires forall j :: 0 <= j <= k ==> At(f, j) == At(g, j)
    ensures Joined(f, k) == Joined(g, k)
  {
    if k > 0 { JoinedSame(f, g, k - 1); }
  }

  lemma TailIsSuffix(d: Disk, n: nat)
    requires n > 0
    ensures IsSuffix(Joined(d, n - 1), Joined(d, n))
  {
    assert Joined(d, n) == At(d, n) + Joined(d, n - 1);
  }

  // A rotation whose generations all moved, whether or not the oldest could be
  // removed and the active file renamed, loses no text but the oldest.
  ghost predicate OnlyOldestLost(f: Disk, g: Disk, keep: nat) {
    && keep >= 1
    && (forall j :: 2 <= j < keep ==> At(f, j) == At(g, j - 1))
    && if keep == 1 then
         At(f, 1) + At(f, 0) == At(g, 0) || (At(f, 0) == At(g, 0) && IsSuffix(At(f, 1), At(g, 1)))
       else
         && At(f, 1) + At(f, 0) == At(g, 0)
         && (At(f, keep) == At(g, keep - 1) || (At(g, keep - 1) == [] && IsSuffix(At(f, keep), At(g, keep))))
  }

  lemma RotationKeepsTail(f: Disk, g: Disk, keep: nat)
    requires OnlyOldestLost(f, g, keep)
    ensures IsSuffix(Joined(f, keep), Joined(g, keep))
  {
    if keep == 1 {
      OneKept(f, g);
    } else if At(f, keep) == At(g, keep - 1) {
      JoinedMoved(f, g, keep);
      TailIsSuffix(g, keep);
    } else {
      HoleKept(f, g, keep);
    }
  }

  // And so does the disk with the active file there again, if it was moved.
  lemma TailKept(d: Disk, f: Disk, g: Disk, keep: nat, written: Text)
    requires OnlyOldestLost(f, g, keep) && IsSuffix(Joined(g, keep), written)
    requires d == f || (0 !in f && d == f[0 := []])
    ensures IsSuffix(Joined(d, keep), written)
  {
    RotationKeepsTail(f, g, keep);
    JoinedSame(d, f, keep);
    SuffixTransitive(Joined(d, keep), Joined(g, keep), written);
  }

  lemma OneKept(f: Disk, g: Disk)
    requires OnlyOldestLost(f, g, 1)
    ensures IsSuffix(Joined(f, 1), Joined(g, 1))
  {
    assert Joined(f, 1) == At(f, 1) + At(f, 0) && Joined(g, 1) == At(g, 1) + At(g, 0);
    if At(f, 1) + At(f, 0) == At(g, 0) {
      TailIsSuffix(g, 1);
      assert Joined(g, 0) == At(g, 0);
    } else {
      SuffixGrows(At(f, 1), At(g, 1), At(g, 0));
    }
  }

  lemma HoleKept(f: Disk, g: Disk, keep: nat)
    requires OnlyOldestLost(f, g, keep) && keep >= 2 && At(g, keep - 1) == [] && IsSuffix(At(f, keep), At(g, keep))
    ensures IsSuffix(Joined(f, keep), Joined(g, keep))
  {
    JoinedMoved(f, g, keep - 1);
    var rest := Joined(g, keep - 2);
    assert Joined(f, keep) == At(f, keep) + rest;
    assert Joined(g, keep - 1) == rest;
    assert Joined(g, keep) == At(g, keep) + rest;
    SuffixGrows(At(f, keep), At(g, keep), rest);
  }

  // --- The writer ----------------------------------------------------------------------

  datatype FileResult = Done | NotExist | Broken

  // The disk after a rotation in which every step succeeded.
  ghost predicate Rotated(d: Disk, was: Disk, keep: nat) {
    && 0 in d && d[0] == [] && (1 in d <==> 0 in was) && At(d, 1) == At(was, 0)
    && (forall j :: 2 <= j <= keep ==> (j in d <==> j - 1 in was) && At(d, j) == At(was, j - 1))
    && (forall j :: j > keep ==> (j in d <==> j in was) && At(d, j) == At(was, j))
  }

  const DEFAULT_MAX_BYTES: nat := 5 * 0x10_0000
  const DEFAULT_KEEP: nat := 5

  // A limit that is not positive means its default.
  function Limit(given: int, fallback: nat): (n: nat)
    requires fallback >= 1
    ensures n >= 1 && (given >= 1 ==> n == given) && (given <= 0 ==> n == fallback)
  {
    if given <= 0 then fallback else given
  }

  class Writer {
    const maxBytes: nat
    const keep: nat
    var disk: Disk
    var size: nat
    var stuck: bool            // a rotation could not reopen the file
    var closed: bool
    ghost var written: Text    // what there was to begin with, and all that was written since
    ghost var shuffled: bool   // the rename of some generation has failed
    ghost var initial: Text    // the active file when it was first opened
    ghost var latest: Text     // the data of the latest write
    ghost var faults: nat      // file operations that have failed for no reason of the writer's

    ghost predicate Usable()
      reads this
    {
      !stuck && !closed
    }

    ghost predicate Valid()
      reads this
    {
      && maxBytes >= 1 && keep >= 1
      && (!stuck ==> 0 in disk && size == |disk[0]|)
      && (!shuffled ==> IsSuffix(Joined(disk, keep), written))
      && (!stuck ==> |disk[0]| <= maxBytes || disk[0] == initial || disk[0] <= latest)
    }

    // The writer on a disk whose active file has been opened.
    constructor (disk: Disk, maxBytes: nat, keep: nat)
      requires maxBytes >= 1 && keep >= 1
      ensures Valid() && Usable() && !shuffled && this.maxBytes == maxBytes && this.keep == keep
      ensures initial == At(disk, 0) && written == Joined(disk, keep)
      ensures this.disk == if 0 in disk then disk else disk[0 := []]
    {
      this.maxBytes, this.keep := maxBytes, keep;
      this.disk := if 0 in disk then disk else disk[0 := []];
      size, stuck, closed := |At(disk, 0)|, false, false;
      written, shuffled, initial, latest, faults := Joined(disk, keep), false, At(disk, 0), [], 0;
      JoinedSame(if 0 in disk then disk else disk[0 := []], disk, keep);
    }

    method Remove(n: nat) returns (r: FileResult)
      modifies this`disk, this`faults
      ensures n !in old(disk) ==> r != Done
      ensures n in old(disk) ==> r != NotExist
      ensures faults == if r == Broken then old(faults) + 1 else old(faults)
      ensures disk == if r == Done then old(disk) - {n} else old(disk)
    {
      var fails: bool := *;
      r := if fails then Broken else if n in disk then Done else NotExist;
      if r == Done {
        disk := disk - {n};
      } else if r == Broken {
        faults := faults + 1;
      }
    }

    method Rename(from: nat, to: nat) returns (r: FileResult)
      modifies this`disk, this`faults
      ensures from !in old(disk) ==> r != Done
      ensures from in old(disk) ==> r != NotExist
      ensures faults == if r == Broken then old(faults) + 1 else old(faults)
      ensures disk == if r == Done then Move(old(disk), from, to) else old(disk)
    {
      var fails: bool := *;
      r := if fails then Broken else if from in disk then Done else NotExist;
      if r == Done {
        disk := Move(disk, from, to);
      } else if r == Broken {
        faults := faults + 1;
      }
    }

    // Path.1..Path.keep-1 shifted up one generation, the highest first.
    method ShiftGenerations() returns (failed: bool)
      requires keep >= 1
      modifies this`disk, this`faults
      ensures !failed ==> disk == Shifted(old(disk), 1, keep)
      ensures faults >= old(faults) && (failed <==> faults > old(faults))
      ensures (0 in disk <==> 0 in old(disk)) && At(disk, 0) == At(old(disk), 0)
    {
      failed := false;
      for i := keep downto 1
        invariant !failed ==> disk == Shifted(old(disk), i, keep)
        invariant faults >= old(faults) && (failed <==> faults > old(faults))
        invariant (0 in disk <==> 0 in old(disk)) && At(disk, 0) == At(old(disk), 0)
      {
        var r := Rename(i, i + 1);
        if r == Broken {
          failed := true;
        }
      }
    }

    method Reopen() returns (ok: bool)
      modifies this`disk, this`size, this`stuck, this`faults
      ensures ok ==> stuck == old(stuck) && 0 in disk && size == |disk[0]|
      ensures !ok ==> stuck
      ensures faults == if ok then old(faults) else old(faults) + 1
      ensures disk == old(disk) || (0 !in old(disk) && disk == old(disk)[0 := []])
    {
      ok := *;
      if !ok {
        stuck, faults := true, faults + 1;
        return;
      }
      if 0 !in disk {
        disk := disk[0 := []];
      }
      var statOk: bool := *;
      if !statOk {
        stuck, faults := true, faults + 1;
        return false;
      }
      size := |disk[0]|;
    }

    // What the generations and the active file become, before it is reopened.
    method MoveFiles() returns (ok: bool, ghost strayed: bool)
      requires keep >= 1 && 0 in disk
      modifies this`disk, this`faults
      ensures faults >= old(faults) && (ok <==> faults == old(faults))
      ensures !strayed ==> OnlyOldestLost(disk, old(disk), keep)
      ensures (0 in disk ==> disk[0] == old(disk)[0]) && (ok ==> 0 !in disk)
      ensures ok ==> !strayed && Rotated(disk[0 := []], old(disk), keep)
    {
      ghost var d0 := disk;
      var removed := Remove(keep);
      ghost var d1 := disk;
      var failed := ShiftGenerations();
      ghost var d2 := disk;
      var renamed := Rename(0, 1);
      ok := removed != Broken && !failed && renamed == Done;
      strayed := failed;
      if !failed {
        AfterMoves(d0, d1, disk, keep, renamed == Done);
        if ok { AllMoved(d0, d1, disk, keep); }
      }
    }

    // rotate: ok when no step failed, closing the old file included.
    method Rotate() returns (ok: bool)
      requires Valid() && Usable()
      modifies this`disk, this`size, this`stuck, this`shuffled, this`faults
      ensures Valid()
      ensures faults >= old(faults) && (ok <==> faults == old(faults))
      ensures ok ==> !stuck && shuffled == old(shuffled) && size == 0 && Rotated(disk, old(disk), keep)
      ensures !stuck ==> disk[0] == [] || disk[0] == old(disk)[0]
      ensures old(shuffled) ==> shuffled
    {
      ghost var before := disk;
      var closeOk: bool := *;
      faults := if closeOk then faults else faults + 1;
      var moved, strayed := MoveFiles();
      shuffled := shuffled || strayed;
      ghost var after := disk;
      var reopened := Reopen();
      ok := closeOk && moved && reopened;
      if !shuffled { TailKept(disk, after, before, keep, written); }
    }

    // What of p reaches the file: all of it, unless the write itself fails.
    method Append(p: Text) returns (n: nat)
      requires !stuck && Valid() && (|disk[0]| == 0 || |disk[0]| + |p| <= maxBytes)
      modifies this`disk, this`size, this`written, this`latest, this`faults
      ensures Valid() && n <= |p|
      ensures faults == if n == |p| then old(faults) else old(faults) + 1
      ensures disk == old(disk)[0 := old(disk)[0] + p[..n]] && written == old(written) + p[..n]
    {
      n :| 0 <= n <= |p|;
      var d := disk[0 := disk[0] + p[..n]];
      JoinedAppended(disk, d, keep, p[..n]);
      if !shuffled {
        SuffixGrows(Joined(disk, keep), written, p[..n]);
      }
      disk, size, written, latest := d, size + n, written + p[..n], p;
      faults := if n == |p| then faults else faults + 1;
    }

    method Write(p: Text) returns (n: nat, ok: bool)
      requires Valid()
      modifies this`disk, this`size, this`stuck, this`shuffled, this`written, this`latest, this`faults
      ensures Valid() && n <= |p| && (ok ==> n == |p|)
      ensures old(Usable()) ==> (ok <==> faults == old(faults))
      ensures !old(Usable()) ==> !ok && n == 0 && disk == old(disk) && stuck == old(stuck)
      ensures written == old(written) + p[..n]
      ensures old(Usable()) && !(old(size) > 0 && old(size) + |p| > maxBytes) ==>
                disk == old(disk)[0 := old(disk)[0] + p[..n]] && !stuck
      ensures (ok || n > 0) && old(size) > 0 && old(size) + |p| > maxBytes ==>
                0 in disk && disk[0] == p[..n] && Rotated(disk[0 := []], old(disk), keep) && !stuck
    {
      if closed || stuck {
        return 0, false;
      }
      if size > 0 && size + |p| > maxBytes {
        var rotated := Rotate();
        if !rotated {
          assert p[..0] == [];
          return 0, false;
        }
      }
      n := Append(p);
      ok := n == |p|;
      if ok { assert p[..n] == p; }
    }

    method Close()
      requires Valid()
      modifies this`closed
      ensures Valid() && closed
    {
      closed := true;
    }
  }

  // Open: a failed call leaves no writer, and the disk as it was but for an empty
  // active file that may have been created.
  method Open(disk: Disk, maxBytes: int, keep: int) returns (w: Writer?, left: Disk)
    ensures left == disk || (0 !in disk && left == disk[0 := []])
    ensures w != null ==> fresh(w) && w.Valid() && w.Usable() && !w.shuffled && w.disk == left && 0 in left
    ensures w != null ==>
              && w.maxBytes == (if maxBytes > 0 then maxBytes else 5_242_880)
              && w.keep == if keep > 0 then keep else 5
    ensures w != null ==> w.initial == At(disk, 0) && w.written == Joined(disk, w.keep)
  {
    w, left := null, disk;
    var made: bool, fileOk: bool, statOk: bool := *, *, *;
    if !made || !fileOk {
      return;
    }
    if 0 !in left {
      left := left[0 := []];
    }
    if statOk {
      w := new Writer(disk, Limit(maxBytes, DEFAULT_MAX_BYTES), Limit(keep, DEFAULT_KEEP));
    }
  }

  lemma {:induction false} JoinedAppended(d: Disk, f: Disk, k: nat, p: Text)
    requires f == d[0 := At(d, 0) + p]
    ensures Joined(f, k) == Joined(d, k) + p
  {
    if k > 0 {
      JoinedAppended(d, f, k - 1, p);
      assert At(f, k) == At(d, k);
    }
  }

  lemma AfterMoves(d0: Disk, d1: Disk, d: Disk, keep: nat, renamed: bool)
    requires keep >= 1 && 0 in d0 && (d1 == d0 || d1 == d0 - {keep})
    requires d == if renamed then Move(Shifted(d1, 1, keep), 0, 1) else Shifted(d1, 1, keep)
    ensures OnlyOldestLost(d, d0, keep)
  {
    forall j | 0 <= j <= keep ensures Shifts(d1, keep, j) { ShiftedAt(d1, 1, keep, j); }
    assert Shifts(d1, keep, 0) && Shifts(d1, keep, 1) && Shifts(d1, keep, keep);
    forall j | 2 <= j < keep ensures At(d, j) == At(d0, j - 1) { assert Shifts(d1, keep, j); }
  }

  ghost predicate Shifts(d: Disk, keep: nat, j: nat)
    requires keep >= 1
  {
    var s := Shifted(d, 1, keep);
    && (j < 1 || j > keep ==> (j in s <==> j in d) && At(s, j) == At(d, j))
    && (j == 1 && 1 < keep ==> j !in s)
    && (1 < j <= keep && (j - 1 in d || j < keep || keep !in d) ==> (j in s <==> j - 1 in d) && At(s, j) == At(d, j - 1))
    && (1 < j == keep && j - 1 !in d ==> At(s, j) == At(d, j))
  }

  lemma AllMoved(d0: Disk, d1: Disk, d: Disk, keep: nat)
    requires keep >= 1 && 0 in d0 && d1 == d0 - {keep}
    requires d == Move(Shifted(d1, 1, keep), 0, 1)
    ensures Rotated(d[0 := []], d0, keep) && 0 !in d
  {
    forall j: nat ensures Shifts(d1, keep, j) { ShiftedAt(d1, 1, keep, j); }
    assert Shifts(d1, keep, 0) && Shifts(d1, keep, 1);
    forall j: nat | 2 <= j <= keep
      ensures (j in d <==> j - 1 in d0) && At(d, j) == At(d0, j - 1)
    {
      assert Shifts(d1, keep, j);
    }
    forall j: nat | j > keep ensures (j in d <==> j in d0) && At(d, j) == At(d0, j) {
      assert Shifts(d1, keep, j);
    }
  }
}
