// Which file and folder names the controller takes (internal/masso/filename.go)
// and where it stores an upload (JoinUploadPath in internal/masso/request.go).
module FileNames {
  import opened Bytes

  const MAX_FILE_NAME: nat := 33
  const MAX_UPLOAD_DIR: nat := 255

  const DOT: byte := 0x2E
  const BACKSLASH: byte := 0x5C

  // The bytes of \ / : * ? " < > |
  const FORBIDDEN: seq<byte> := [0x5C, 0x2F, 0x3A, 0x2A, 0x3F, 0x22, 0x3C, 0x3E, 0x7C]

  predicate ValidComponent(s: Text) {
    && s != [DOT] && s != [DOT, DOT]
    && forall i :: 0 <= i < |s| ==> 0x20 <= s[i] <= 0x7E && s[i] !in FORBIDDEN
  }

  predicate ValidFileName(name: Text) {
    1 <= |name| <= MAX_FILE_NAME && ValidComponent(name)
  }

  // strings.SplitSeq
  function Split(s: Text, sep: byte): (parts: seq<Text>)
    ensures |parts| >= 1
    ensures sep !in s ==> parts == [s]
    decreases |s|
  {
    var i := IndexOf(s, sep);
    if i == |s| then [s] else [s[..i]] + Split(s[i + 1..], sep)
  }

  // The first index of b in s, |s| if there is none.
  function IndexOf(s: Text, b: byte): (i: nat)
    ensures i <= |s| && b !in s[..i]
    ensures i < |s| ==> s[i] == b
    ensures i == |s| <==> b !in s
  {
    if s == [] || s[0] == b then 0 else 1 + IndexOf(s[1..], b)
  }

  predicate ValidUploadDir(dir: Text) {
    dir == [] ||
    (|dir| <= MAX_UPLOAD_DIR &&
     forall i :: 0 <= i < |Split(dir, BACKSLASH)| ==>
       Split(dir, BACKSLASH)[i] != [] && ValidComponent(Split(dir, BACKSLASH)[i]))
  }

  // strings.Trim(path, `\`)
  function TrimBackslashes(s: Text): (r: Text)
    ensures r != [] ==> r[0] != BACKSLASH && r[|r| - 1] != BACKSLASH
    decreases |s|
  {
    if s == [] then []
    else if s[0] == BACKSLASH then TrimBackslashes(s[1..])
    else if s[|s| - 1] == BACKSLASH then TrimBackslashes(s[..|s| - 1])
    else s
  }

  function JoinUploadPath(path: Text, name: Text): Text {
    var dir := TrimBackslashes(path);
    if dir == [] then name else dir + [BACKSLASH] + name
  }

  // The path field of a start request: a lone backslash for the drive root.
  function PathField(dir: Text): Text {
    if dir == [] then [BACKSLASH] else dir
  }

  // A valid folder neither begins nor ends with a separator.
  lemma ValidDirIsTrimmed(dir: Text)
    requires ValidUploadDir(dir) && dir != []
    ensures dir[0] != BACKSLASH && dir[|dir| - 1] != BACKSLASH
    ensures TrimBackslashes(dir) == dir
  {
    var parts := Split(dir, BACKSLASH);
    FirstPart(dir, BACKSLASH);
    if dir[|dir| - 1] == BACKSLASH { LastPart(dir, BACKSLASH); }
    assert parts[0] != [] && parts[|parts| - 1] != [];
  }

  lemma FirstPart(s: Text, sep: byte)
    ensures s != [] && s[0] == sep ==> Split(s, sep)[0] == []
  {
    if s != [] && s[0] == sep {
      assert IndexOf(s, sep) == 0;
    }
  }

  lemma {:induction false} LastPart(s: Text, sep: byte)
    requires s != [] && s[|s| - 1] == sep
    ensures var parts := Split(s, sep); parts[|parts| - 1] == []
    decreases |s|
  {
    var i := IndexOf(s, sep);
    var rest := s[i + 1..];
    if rest == [] {
      assert Split(rest, sep) == [[]];
    } else {
      LastPart(rest, sep);
    }
  }

  // An upload to the root is stored under its name, any other under the folder, a
  // separator and the name.
  lemma StoredPathExact(dir: Text, name: Text)
    requires ValidUploadDir(dir)
    ensures JoinUploadPath(PathField(dir), name) == if dir == [] then name else dir + [0x5C] + name
  {
    assert TrimBackslashes([BACKSLASH]) == [] by { assert [BACKSLASH][1..] == []; }
    if dir != [] { ValidDirIsTrimmed(dir); }
  }

  // The last separator divides a path in one way only.
  lemma LastCut(d1: Text, n1: Text, d2: Text, n2: Text, sep: byte)
    requires d1 + [sep] + n1 == d2 + [sep] + n2 && sep !in n1 && sep !in n2
    ensures d1 == d2 && n1 == n2
  {
    var p := d1 + [sep] + n1;
    forall i | |d1| < i < |p| ensures p[i] != sep { assert p[i] == n1[i - |d1| - 1]; }
    forall i | |d2| < i < |p| ensures p[i] != sep { assert p[i] == n2[i - |d2| - 1]; }
    assert p[|d1|] == sep && p[|d2|] == sep;
    assert d1 == p[..|d1|] && n1 == p[|d1| + 1..];
    assert d2 == p[..|d2|] && n2 == p[|d2| + 1..];
  }

  lemma NameHasNoSeparator(name: Text)
    requires ValidFileName(name)
    ensures BACKSLASH !in name
  {
    assert BACKSLASH in FORBIDDEN;
  }

  lemma WithFolder(dir: Text, name: Text)
    ensures BACKSLASH in dir + [BACKSLASH] + name
  {
    assert (dir + [BACKSLASH] + name)[|dir|] == BACKSLASH;
  }

  // Distinct uploads never share a stored path.
  lemma JoinUploadPathInjective(dir1: Text, name1: Text, dir2: Text, name2: Text)
    requires ValidUploadDir(dir1) && ValidFileName(name1)
    requires ValidUploadDir(dir2) && ValidFileName(name2)
    requires JoinUploadPath(PathField(dir1), name1) == JoinUploadPath(PathField(dir2), name2)
    ensures dir1 == dir2 && name1 == name2
  {
    StoredPathExact(dir1, name1);
    StoredPathExact(dir2, name2);
    NameHasNoSeparator(name1);
    NameHasNoSeparator(name2);
    WithFolder(dir1, name1);
    WithFolder(dir2, name2);
    if dir1 != [] && dir2 != [] { LastCut(dir1, name1, dir2, name2, BACKSLASH); }
  }

  lemma StoredPathNotEmpty(dir: Text, name: Text)
    requires ValidFileName(name)
    ensures JoinUploadPath(PathField(dir), name) != []
  {
  }

  // --- The rules, spelled out --------------------------------------------------

  // A byte that may stand in a name: printable, and none of \ / : * ? " < > |.
  predicate NameByte(b: byte) {
    && ' ' as int <= b as int <= '~' as int
    && b as char !in {'\\', '/', ':', '*', '?', '\"', '<', '>', '|'}
  }

  // A file name is 1 to 33 such bytes, but neither "." nor "..".
  lemma FileNameExact(name: Text)
    ensures ValidFileName(name) <==>
            && 1 <= |name| <= 33 && (forall i :: 0 <= i < |name| ==> NameByte(name[i]))
            && !(|name| == 1 && name[0] as char == '.')
            && !(|name| == 2 && name[0] as char == '.' && name[1] as char == '.')
  {
    forall b: byte ensures NameByte(b) <==> 0x20 <= b <= 0x7E && b !in FORBIDDEN {}
  }

  function Joined(parts: seq<Text>, sep: byte): Text
    requires |parts| >= 1
  {
    if |parts| == 1 then parts[0] else parts[0] + [sep] + Joined(parts[1..], sep)
  }

  lemma JoinedCons(first: Text, rest: seq<Text>, sep: byte)
    requires |rest| >= 1
    ensures Joined([first] + rest, sep) == first + [sep] + Joined(rest, sep)
  {
    assert ([first] + rest)[1..] == rest;
  }

  lemma CutAt(first: Text, sep: byte, tail: Text)
    requires sep !in first
    ensures Split(first + [sep] + tail, sep) == [first] + Split(tail, sep)
  {
    var s := first + [sep] + tail;
    assert s[..|first|] == first && s[|first|] == sep && s[|first| + 1..] == tail;
    FirstAt(s, sep, |first|);
  }

  // The separator found first, and what lies on either side of it.
  lemma Halves(s: Text, sep: byte) returns (first: Text, tail: Text)
    requires sep in s
    ensures s == first + [sep] + tail && sep !in first && |tail| < |s|
  {
    var i := IndexOf(s, sep);
    first, tail := s[..i], s[i + 1..];
  }

  // Splitting cuts at every separator and nowhere else.
  lemma {:induction false} SplitExact(s: Text, sep: byte)
    ensures Joined(Split(s, sep), sep) == s
    ensures forall i :: 0 <= i < |Split(s, sep)| ==> sep !in Split(s, sep)[i]
    decreases |s|
  {
    if sep in s {
      var first, tail := Halves(s, sep);
      SplitExact(tail, sep);
      CutAt(first, sep, tail);
      JoinedCons(first, Split(tail, sep), sep);
    }
  }

  lemma {:induction false} SplitJoined(parts: seq<Text>, sep: byte)
    requires |parts| >= 1 && forall i :: 0 <= i < |parts| ==> sep !in parts[i]
    ensures Split(Joined(parts, sep), sep) == parts
    decreases |parts|
  {
    if |parts| > 1 {
      var first, rest := parts[0], parts[1..];
      assert parts == [first] + rest;
      JoinedCons(first, rest, sep);
      SplitJoined(rest, sep);
      CutAt(first, sep, Joined(rest, sep));
    }
  }

  lemma FirstAt(s: Text, sep: byte, i: nat)
    requires i < |s| && s[i] == sep && sep !in s[..i]
    ensures IndexOf(s, sep) == i
  {
    var k := IndexOf(s, sep);
    forall m | 0 <= m < i ensures s[m] != sep { assert s[..i][m] == s[m]; }
    forall m | 0 <= m < k ensures s[m] != sep { assert s[..k][m] == s[m]; }
  }

  // A component of a folder: such bytes, at least one, but neither "." nor "..".
  predicate FolderName(s: Text) {
    && s != [] && (forall i :: 0 <= i < |s| ==> NameByte(s[i]))
    && !(|s| == 1 && s[0] as char == '.') && !(|s| == 2 && s[0] as char == '.' && s[1] as char == '.')
  }

  lemma ComponentExact(s: Text)
    ensures FolderName(s) <==> s != [] && ValidComponent(s)
    ensures FolderName(s) ==> BACKSLASH !in s
  {
    forall b: byte ensures NameByte(b) <==> 0x20 <= b <= 0x7E && b !in FORBIDDEN {}
    assert BACKSLASH in FORBIDDEN;
  }

  // An upload folder is empty, or at most 255 bytes of folder names with a
  // separator between each two.
  lemma UploadDirExact(dir: Text)
    ensures ValidUploadDir(dir) <==> dir == [] || (|dir| <= 255 && exists parts :: FolderPath(dir, parts))
  {
    DirParts(dir, Split(dir, BACKSLASH));
    SplitExact(dir, BACKSLASH);
    if ValidUploadDir(dir) && dir != [] { assert FolderPath(dir, Split(dir, BACKSLASH)); }
    if parts :| FolderPath(dir, parts) {
      forall i | 0 <= i < |parts| ensures BACKSLASH !in parts[i] { ComponentExact(parts[i]); }
      SplitJoined(parts, BACKSLASH);
    }
  }

  lemma DirParts(dir: Text, cut: seq<Text>)
    requires cut == Split(dir, BACKSLASH)
    ensures ValidUploadDir(dir) <==> dir == [] || (|dir| <= 255 && AllFolderNames(cut))
  {
    ComponentsExact(cut);
  }

  predicate AllFolderNames(parts: seq<Text>) {
    forall i :: 0 <= i < |parts| ==> FolderName(parts[i])
  }

  lemma {:induction false} ComponentsExact(parts: seq<Text>)
    ensures AllFolderNames(parts) <==> forall i :: 0 <= i < |parts| ==> parts[i] != [] && ValidComponent(parts[i])
    decreases |parts|
  {
    if parts != [] {
      var init, last := parts[..|parts| - 1], parts[|parts| - 1];
      ComponentsExact(init);
      ComponentExact(last);
      assert forall i :: 0 <= i < |init| ==> parts[i] == init[i];
    }
  }

  ghost predicate FolderPath(dir: Text, parts: seq<Text>) {
    |parts| >= 1 && Joined(parts, BACKSLASH) == dir && AllFolderNames(parts)
  }

  function Backslashes(n: nat): (r: Text)
    ensures |r| == n
  {
    seq(n, i => BACKSLASH)
  }

  lemma OneMoreAhead(m: nat, r: Text)
    ensures [BACKSLASH] + (Backslashes(m) + r) == Backslashes(m + 1) + r
  {
    assert Backslashes(m + 1) == [BACKSLASH] + Backslashes(m);
  }

  lemma OneMoreBehind(r: Text, n: nat)
    ensures r + Backslashes(n) + [BACKSLASH] == r + Backslashes(n + 1)
  {
    assert Backslashes(n + 1) == Backslashes(n) + [BACKSLASH];
  }

  // Trimming takes off the separators at both ends and nothing else.
  lemma {:induction false} TrimExact(s: Text) returns (m: nat, n: nat)
    ensures s == Backslashes(m) + (TrimBackslashes(s) + Backslashes(n))
    decreases |s|
  {
    m, n := 0, 0;
    if s != [] && s[0] == BACKSLASH {
      m, n := TrimExact(s[1..]);
      assert s == [BACKSLASH] + s[1..];
      OneMoreAhead(m, TrimBackslashes(s[1..]) + Backslashes(n));
      m := m + 1;
    } else if s != [] && s[|s| - 1] == BACKSLASH {
      n := TrimBehind(s);
    }
  }

  lemma {:induction false} TrimBehind(s: Text) returns (n: nat)
    requires s != [] ==> s[0] != BACKSLASH
    ensures s == TrimBackslashes(s) + Backslashes(n)
    decreases |s|
  {
    n := 0;
    if s != [] && s[|s| - 1] == BACKSLASH {
      var init := s[..|s| - 1];
      n := TrimBehind(init);
      assert s == init + [BACKSLASH];
      OneMoreBehind(TrimBackslashes(init), n);
      n := n + 1;
    }
  }
}
