// A folder tree as the watcher lists it, the folders its recursive walk enters,
// and the predicate that predicts the walk for one path
// (internal/watch/watch.go). Paths are sequences of components.
module Folders {
  import opened Bytes

  type Path = seq<string>

  datatype Stat = Unknown | Irregular | Regular(size: int, modTime: int)

  datatype Node = FileNode(name: string, stat: Stat) | Folder(name: string, listing: Listing)

  datatype Listing = Unlistable | Listed(nodes: seq<Node>)

  const SENT_DIR := "sent"

  // strings.EqualFold with "sent": the letters fold as in Unicode, where the
  // long s goes with s.
  function FoldChar(c: char): char {
    if 'A' <= c <= 'Z' then c - 'A' + 'a'
    else if c == '\U{17F}' then 's'
    else c
  }

  predicate FoldsTo(name: string, lower: string) {
    |name| == |lower| && forall i :: 0 <= i < |name| ==> FoldChar(name[i]) == lower[i]
  }

  predicate SkippedName(name: string) {
    "." <= name || "~$" <= name
  }

  predicate WalkedDir(at: Path, name: string) {
    !SkippedName(name) && (at != [] || !FoldsTo(name, SENT_DIR))
  }

  // The walk goes from the folder at into its subfolder name.
  predicate Enters(hidden: Path -> bool, at: Path, name: string) {
    WalkedDir(at, name) && !hidden(at + [name])
  }

  // The walk enters a folder unless its name begins with a dot or with "~$", or it
  // is called sent, in whatever case, at the top, or it is hidden.
  lemma EntersExact(hidden: Path -> bool, at: Path, name: string)
    ensures Enters(hidden, at, name) <==>
            && !(|name| >= 1 && name[0] == '.') && !(|name| >= 2 && name[0] == '~' && name[1] == '$')
            && !(at == [] && CalledSent(name)) && !hidden(at + [name])
  {
    if FoldsTo(name, SENT_DIR) {
      assert FoldChar(name[0]) == 's' && FoldChar(name[1]) == 'e' && FoldChar(name[2]) == 'n' && FoldChar(name[3]) == 't';
    }
  }

  predicate CalledSent(name: string) {
    && |name| == 4 && (name[0] == 's' || name[0] == 'S' || name[0] == '\U{17F}')
    && (name[1] == 'e' || name[1] == 'E') && (name[2] == 'n' || name[2] == 'N') && (name[3] == 't' || name[3] == 'T')
  }

  // --- The walk and its prediction ------------------------------------------------

  // The folders scanDir is run on when it is run on these nodes at this place.
  function Scanned(hidden: Path -> bool, at: Path, nodes: seq<Node>): set<Path>
    decreases nodes
  {
    if nodes == [] then {at} else Into(hidden, at, nodes[0]) + Scanned(hidden, at, nodes[1..])
  }

  // Those it is run on because of one entry.
  function Into(hidden: Path -> bool, at: Path, n: Node): set<Path>
    decreases n
  {
    match n
    case FileNode(_, _) => {}
    case Folder(name, listing) =>
      if Enters(hidden, at, name) && listing.Listed? then Scanned(hidden, at + [name], listing.nodes) else {}
  }

  // There is a folder at this place, and the way to it can be listed.
  ghost predicate HasFolder(nodes: seq<Node>, dirs: Path)
    decreases dirs, 1
  {
    dirs == [] || exists i :: 0 <= i < |nodes| && LeadsTo(nodes[i], dirs)
  }

  ghost predicate LeadsTo(n: Node, dirs: Path)
    requires dirs != []
    decreases dirs, 0
  {
    n.Folder? && n.name == dirs[0] && n.listing.Listed? && HasFolder(n.listing.nodes, dirs[1..])
  }

  // Every folder on the way from at is one the walk enters.
  predicate Accepted(hidden: Path -> bool, at: Path, dirs: Path) {
    forall i :: 0 <= i < |dirs| ==> Enters(hidden, at + dirs[..i], dirs[i])
  }

  lemma AcceptedStep(hidden: Path -> bool, at: Path, dirs: Path)
    requires dirs != []
    ensures Accepted(hidden, at, dirs) <==> Enters(hidden, at, dirs[0]) && Accepted(hidden, at + [dirs[0]], dirs[1..])
  {
    var sub, rest := at + [dirs[0]], dirs[1..];
    assert at + dirs[..0] == at;
    forall i | 0 <= i < |rest| ensures sub + rest[..i] == at + dirs[..i + 1] && rest[i] == dirs[i + 1] {
      assert dirs[..i + 1] == [dirs[0]] + rest[..i];
    }
    if Enters(hidden, at, dirs[0]) && Accepted(hidden, sub, rest) {
      forall i | 0 <= i < |dirs| ensures Enters(hidden, at + dirs[..i], dirs[i]) {
        if i > 0 { assert Enters(hidden, sub + rest[..i - 1], rest[i - 1]); }
      }
    }
    if Accepted(hidden, at, dirs) {
      forall i | 0 <= i < |rest| ensures Enters(hidden, sub + rest[..i], rest[i]) {
        assert Enters(hidden, at + dirs[..i + 1], dirs[i + 1]);
      }
    }
  }

  // The folder relativeDir finds for a path, if it accepts it.
  function FolderOf(dir: Path, path: Path, hidden: Path -> bool): Option<Path> {
    if |path| > |dir| && dir <= path && Accepted(hidden, [], path[|dir|..|path| - 1])
    then Some(path[|dir|..|path| - 1]) else None
  }

  // relativeDir on a path: the folder of its file relative to dir.
  method RelativeDir(dir: Path, path: Path, hidden: Path -> bool) returns (r: Option<Path>)
    ensures r == FolderOf(dir, path, hidden)
  {
    if |path| <= |dir| || path[..|dir|] != dir {
      return None;
    }
    var dirs := path[|dir|..|path| - 1];
    var at: Path := [];
    for i := 0 to |dirs|
      invariant at == dirs[..i]
      invariant forall j :: 0 <= j < i ==> Enters(hidden, [] + dirs[..j], dirs[j])
    {
      assert [] + dirs[..i] == at;
      if !WalkedDir(at, dirs[i]) {
        return None;
      }
      if hidden(at + [dirs[i]]) {
        return None;
      }
      at := at + [dirs[i]];
    }
    assert at == dirs;
    return Some(at);
  }

  // The prediction agrees with the walk on every tree: the walk scans a folder
  // exactly when it is there to be listed and the path predicate accepts it.
  lemma {:induction false} WalkAgrees(hidden: Path -> bool, at: Path, nodes: seq<Node>, dirs: Path)
    ensures at + dirs in Scanned(hidden, at, nodes) <==> HasFolder(nodes, dirs) && Accepted(hidden, at, dirs)
    decreases dirs
  {
    if dirs == [] {
      assert at + dirs == at;
      ScannedHere(hidden, at, nodes);
    } else {
      AcceptedStep(hidden, at, dirs);
      ScannedIff(hidden, at, nodes, dirs);
      forall i | 0 <= i < |nodes|
        ensures at + dirs in Into(hidden, at, nodes[i]) <==> LeadsTo(nodes[i], dirs) && Accepted(hidden, at, dirs)
      {
        IntoIff(hidden, at, nodes[i], dirs);
        if nodes[i].Folder? && nodes[i].name == dirs[0] && nodes[i].listing.Listed? {
          WalkAgrees(hidden, at + [dirs[0]], nodes[i].listing.nodes, dirs[1..]);
          assert at + [dirs[0]] + dirs[1..] == at + dirs;
        }
      }
    }
  }

  lemma {:induction false} ScannedHere(hidden: Path -> bool, at: Path, nodes: seq<Node>)
    ensures at in Scanned(hidden, at, nodes)
    decreases nodes
  {
    if nodes != [] { ScannedHere(hidden, at, nodes[1..]); }
  }

  // What is scanned below this place is scanned because of one of its entries.
  lemma {:induction false} ScannedIff(hidden: Path -> bool, at: Path, nodes: seq<Node>, dirs: Path)
    requires dirs != []
    ensures at + dirs in Scanned(hidden, at, nodes) <==> exists i :: 0 <= i < |nodes| && at + dirs in Into(hidden, at, nodes[i])
    decreases nodes
  {
    if nodes == [] {
      assert at + dirs != at;
    } else {
      ScannedIff(hidden, at, nodes[1..], dirs);
      assert forall i :: 0 <= i < |nodes[1..]| ==> nodes[1..][i] == nodes[i + 1];
      if i :| 0 < i < |nodes| && at + dirs in Into(hidden, at, nodes[i]) {
        assert nodes[1..][i - 1] == nodes[i];
      }
    }
  }

  lemma IntoIff(hidden: Path -> bool, at: Path, n: Node, dirs: Path)
    requires dirs != []
    ensures at + dirs in Into(hidden, at, n) <==>
              && n.Folder? && n.listing.Listed? && n.name == dirs[0] && Enters(hidden, at, n.name)
              && at + dirs in Scanned(hidden, at + [n.name], n.listing.nodes)
  {
    if at + dirs in Into(hidden, at, n) {
      ScannedUnder(hidden, at + [n.name], n.listing.nodes);
      assert at + dirs in Scanned(hidden, at + [n.name], n.listing.nodes);
      assert at + [n.name] <= at + dirs;
      assert (at + dirs)[|at|] == dirs[0] && (at + [n.name])[|at|] == n.name;
    }
  }

  lemma {:induction false} ScannedUnder(hidden: Path -> bool, at: Path, nodes: seq<Node>)
    ensures forall d :: d in Scanned(hidden, at, nodes) ==> at <= d
    decreases nodes
  {
    if nodes != [] {
      var n := nodes[0];
      ScannedUnder(hidden, at, nodes[1..]);
      if n.Folder? && n.listing.Listed? {
        ScannedUnder(hidden, at + [n.name], n.listing.nodes);
      }
      forall d | d in Into(hidden, at, n) ensures at <= d {
        assert d in Scanned(hidden, at + [n.name], n.listing.nodes);
        assert at <= at + [n.name] <= d;
      }
    }
  }
}
