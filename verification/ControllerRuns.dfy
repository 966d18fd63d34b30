// What the controller's upload handlers do over any sequence of requests
// (internal/masso/sim/sim.go).
module ControllerRuns {
  import opened Bytes
  import opened FileNames
  import opened Wire
  import opened Controller

  function After(c: Ctl, qs: seq<Request>): Ctl
    decreases |qs|
  {
    if qs == [] then c else Handle(After(c, qs[..|qs| - 1]), qs[|qs| - 1]).0
  }

  predicate StartsName(q: Request, name: Text) {
    q.UploadStart? && JoinUploadPath(q.path, q.name) == name
  }

  // --- Displaced transfers -------------------------------------------------------

  // This start finds the transfer of another file, name, open, and takes its place.
  predicate Displaces(c: Ctl, q: Request, name: Text) {
    && c.uploading && c.uploadName == name
    && q.UploadStart? && !StartsName(q, name) && JoinUploadPath(q.path, q.name) !in c.stuck
  }

  lemma StuckStep(c: Ctl, q: Request, name: Text)
    ensures name in Handle(c, q).0.stuck <==> name in c.stuck || Displaces(c, q, name)
  {
  }

  // Request i of the run displaces it.
  predicate DisplacedAt(c: Ctl, qs: seq<Request>, i: nat, name: Text) {
    i < |qs| && Displaces(After(c, qs[..i]), qs[i], name)
  }

  lemma DisplacedStep(c: Ctl, qs: seq<Request>, q: Request, i: nat, name: Text)
    ensures DisplacedAt(c, qs + [q], i, name) <==>
            DisplacedAt(c, qs, i, name) || (i == |qs| && Displaces(After(c, qs), q, name))
    ensures After(c, qs + [q]) == Handle(After(c, qs), q).0
  {
    var more := qs + [q];
    assert more[..|qs|] == qs;
    if i < |qs| { assert more[..i] == qs[..i] && more[i] == qs[i]; }
  }

  // A name is stuck exactly if some start of another file has displaced its open
  // transfer; no request frees it.
  lemma {:induction false} StuckIffDisplaced(c: Ctl, qs: seq<Request>, name: Text)
    ensures name in After(c, qs).stuck <==> name in c.stuck || exists i: nat :: DisplacedAt(c, qs, i, name)
    decreases |qs|
  {
    if qs != [] {
      var init, q := qs[..|qs| - 1], qs[|qs| - 1];
      assert qs == init + [q];
      StuckIffDisplaced(c, init, name);
      StuckStep(After(c, init), q, name);
      forall i: nat
        ensures DisplacedAt(c, qs, i, name) <==>
                DisplacedAt(c, init, i, name) || (i == |init| && Displaces(After(c, init), q, name))
      {
        DisplacedStep(c, init, q, i, name);
      }
      DisplacedStep(c, init, q, |init|, name);
    }
  }

  // A start is refused exactly for a stuck name or the open one, and a refused
  // start changes nothing; any other begins afresh.
  lemma StartExact(c: Ctl, size: nat, path: Text, bare: Text)
    ensures var name := JoinUploadPath(path, bare);
            var (t, answers) := Handle(c, UploadStart(size, path, bare));
            if name in c.stuck || (c.uploading && c.uploadName == name) then t == c && answers == {StartAck(0xF7)}
            else
              && answers == {StartAck(0x00)} && t.files == c.files
              && t.uploading && t.uploadName == name && t.uploadSize == size && t.uploadData == []
              && t.acceptedCount == 0 && !t.canceled && t.current == name
  {
  }

  // --- Aborts ----------------------------------------------------------------------

  // An abort has been handled, and no start since has been accepted.
  predicate Aborted(c: Ctl) {
    c.canceled && !c.uploading
  }

  lemma AbortAborts(c: Ctl)
    ensures var (t, answers) := Handle(c, UploadAbort);
            && Aborted(t) && t.current == [] && answers == {ChunkAck(0x02, 0x52455355)}
            && t.files == if c.current == [] then c.files else c.files - {c.current}
  {
  }

  lemma AbortedStep(c: Ctl, q: Request)
    requires Aborted(c) && (q.UploadStart? ==> JoinUploadPath(q.path, q.name) in c.stuck)
    ensures Aborted(Handle(c, q).0) && Handle(c, q).0.stuck == c.stuck
    ensures c.current == [] ==> Handle(c, q).0.current == [] && Handle(c, q).0.files == c.files
    ensures q.UploadChunk? ==> Handle(c, q).1 == {ChunkAck(0x02, 0x52455355)}
  {
  }

  // After an abort no chunk is stored and each is answered as canceled, until a
  // start is accepted.
  lemma {:induction false} CanceledUntilStart(c: Ctl, qs: seq<Request>, index: nat, data: seq<byte>)
    requires forall i :: 0 <= i < |qs| && qs[i].UploadStart? ==> JoinUploadPath(qs[i].path, qs[i].name) in c.stuck
    ensures var a := Handle(c, UploadAbort).0;
            var t := After(a, qs);
            && Aborted(t) && t.current == [] && t.stuck == a.stuck && t.files == a.files
            && Handle(t, UploadChunk(index, data)) == (t, {ChunkAck(0x02, 0x52455355)})
    decreases |qs|
  {
    var a := Handle(c, UploadAbort).0;
    AbortAborts(c);
    if qs != [] {
      var n := |qs| - 1;
      CanceledUntilStart(c, qs[..n], index, data);
      AbortedStep(After(a, qs[..n]), qs[n]);
    }
  }

  // --- What is stored ------------------------------------------------------------------

  // This chunk is the next one of the open transfer, and makes it whole.
  predicate Completes(c: Ctl, q: Request, name: Text, content: seq<byte>) {
    && c.uploading && c.uploadName == name
    && q.UploadChunk? && q.index == c.acceptedCount && content == c.uploadData + q.data && |content| == c.uploadSize
  }

  // A file is stored only by the chunk that completes its transfer, with exactly
  // the bytes received, and goes only by an abort of the transfer accepted last.
  lemma FilesStep(c: Ctl, q: Request, name: Text)
    ensures var files := Handle(c, q).0.files;
            && (name in files <==>
                  || (exists content :: Completes(c, q, name, content))
                  || (name in c.files && !(q.UploadAbort? && c.current == name && name != [])))
            && (forall content :: Completes(c, q, name, content) ==> files[name] == content)
            && (name in files && !(exists content :: Completes(c, q, name, content)) ==> files[name] == c.files[name])
  {
    if q.UploadChunk? && c.uploading && c.uploadName == name {
      var content := c.uploadData + q.data;
      assert q.index == c.acceptedCount && |content| == c.uploadSize ==> Completes(c, q, name, content);
    }
  }

  // A chunk at another index, or with no transfer open, is answered with the count
  // as it is.
  lemma OtherChunkIgnored(c: Ctl, index: nat, data: seq<byte>)
    requires !c.uploading || index != c.acceptedCount
    ensures Handle(c, UploadChunk(index, data)) ==
            (c, {if c.canceled then ChunkAck(0x02, 0x52455355) else ChunkAck(0x00, c.acceptedCount)})
  {
  }
}
