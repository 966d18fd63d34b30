// The controller's side of an upload: the state internal/masso/sim/sim.go keeps
// and how start, chunk and abort requests change it.
module Controller {
  import opened Bytes
  import opened FileNames
  import opened Wire

  // Result bytes (internal/masso/reply.go).
  const START_OK: byte := 0x00
  const START_NO_USB: byte := 0xE9
  const START_ALREADY_STARTED: byte := 0xF7
  const CHUNK_OK: byte := 0x00
  const CHUNK_USB_WRITE_ERROR: byte := 0x01
  const CHUNK_CANCELED: byte := 0x02

  // "USER", little-endian: the count a canceled ACK carries.
  const USER_ACCEPTED: nat := 0x52455355

  datatype Reply =
    | StartAck(startResult: byte)
    | ChunkAck(chunkResult: byte, accepted: nat)

  datatype Ctl = Ctl(
    uploading: bool,
    uploadName: Text,
    uploadSize: nat,
    uploadData: seq<byte>,
    acceptedCount: nat,
    canceled: bool,
    current: Text,             // the transfer an abort would delete; empty for none
    stuck: set<Text>,          // names displaced while open
    files: map<Text, seq<byte>>)

  // A start for name would be refused: its transfer is open or displaced.
  predicate Refuses(c: Ctl, name: Text) {
    name in c.stuck || (c.uploading && name == c.uploadName)
  }

  function Reset(c: Ctl): Ctl {
    c.(uploading := false, uploadData := [], acceptedCount := 0)
  }

  function Begin(c: Ctl, name: Text, size: nat): Ctl {
    Reset(c).(canceled := false, current := name, uploading := true, uploadName := name, uploadSize := size)
  }

  function OnStart(c: Ctl, size: nat, name: Text): (Ctl, Reply) {
    if Refuses(c, name) then (c, StartAck(START_ALREADY_STARTED))
    else
      var displaced := if c.uploading then c.(stuck := c.stuck + {c.uploadName}) else c;
      (Begin(displaced, name, size), StartAck(START_OK))
  }

  function OnAbort(c: Ctl): (Ctl, Reply) {
    var c1 := Reset(c);
    var c2 := if c.current != [] then c1.(files := c.files - {c.current}, current := []) else c1;
    (c2.(canceled := true), ChunkAck(CHUNK_CANCELED, USER_ACCEPTED))
  }

  function Accept(c: Ctl, data: seq<byte>): Ctl {
    var grown := c.uploadData + data;
    var c1 := c.(uploadData := grown, acceptedCount := (c.acceptedCount + 1) % UINT32_LIMIT);
    if |grown| == c.uploadSize then c1.(files := c.files[c.uploadName := grown], uploading := false)
    else c1
  }

  function OnChunk(c: Ctl, index: nat, data: seq<byte>): (Ctl, Reply) {
    var c1 := if c.uploading && index == c.acceptedCount then Accept(c, data) else c;
    (c1, if c1.canceled then ChunkAck(CHUNK_CANCELED, USER_ACCEPTED) else ChunkAck(CHUNK_OK, c1.acceptedCount))
  }

  // What one delivered upload request does; any other request leaves the
  // upload state alone and draws no upload reply.
  function Handle(c: Ctl, q: Request): (r: (Ctl, set<Reply>)) {
    match q
    case UploadStart(size, path, name) => var (c', a) := OnStart(c, size, JoinUploadPath(path, name)); (c', {a})
    case UploadChunk(index, data) => var (c', a) := OnChunk(c, index, data); (c', {a})
    case UploadAbort => var (c', a) := OnAbort(c); (c', {a})
    case _ => (c, {})
  }

  // The handlers as the simulator runs them, on fields updated in place.
  class Simulator {
    var uploading: bool
    var uploadName: Text
    var uploadSize: nat
    var uploadData: seq<byte>
    var acceptedCount: nat
    var canceled: bool
    var current: Text
    var stuck: set<Text>
    var files: map<Text, seq<byte>>

    function View(): Ctl
      reads this
    {
      Ctl(uploading, uploadName, uploadSize, uploadData, acceptedCount, canceled, current, stuck, files)
    }

    constructor ()
      ensures View() == Ctl(false, [], 0, [], 0, false, [], {}, map[])
    {
      uploading, uploadName, uploadSize, uploadData, acceptedCount := false, [], 0, [], 0;
      canceled, current, stuck, files := false, [], {}, map[];
    }

    method ResetUpload()
      modifies this
      ensures View() == Reset(old(View()))
    {
      uploading := false;
      uploadData := [];
      acceptedCount := 0;
    }

    method BeginUpload(name: Text, size: nat)
      modifies this
      ensures View() == Begin(old(View()), name, size)
    {
      ResetUpload();
      canceled := false;
      current := name;
      uploading := true;
      uploadName := name;
      uploadSize := size;
    }

    method HandleUploadStart(size: nat, path: Text, bare: Text) returns (reply: Reply)
      modifies this
      ensures (View(), reply) == OnStart(old(View()), size, JoinUploadPath(path, bare))
    {
      var name := JoinUploadPath(path, bare);
      if name in stuck || (uploading && name == uploadName) {
        return StartAck(START_ALREADY_STARTED);
      }
      if uploading {
        stuck := stuck + {uploadName};
      }
      BeginUpload(name, size);
      reply := StartAck(START_OK);
    }

    method HandleUploadAbort() returns (reply: Reply)
      modifies this
      ensures (View(), reply) == OnAbort(old(View()))
    {
      ResetUpload();
      if current != [] {
        files := files - {current};
        current := [];
      }
      canceled := true;
      reply := ChunkAck(CHUNK_CANCELED, USER_ACCEPTED);
    }

    method HandleUploadChunk(index: nat, data: seq<byte>) returns (reply: Reply)
      modifies this
      ensures (View(), reply) == OnChunk(old(View()), index, data)
    {
      if uploading && index == acceptedCount {
        uploadData := uploadData + data;
        acceptedCount := (acceptedCount + 1) % UINT32_LIMIT;
        if |uploadData| == uploadSize {
          files := files[uploadName := uploadData];
          uploading := false;
        }
      }
      if canceled {
        reply := ChunkAck(CHUNK_CANCELED, USER_ACCEPTED);
      } else {
        reply := ChunkAck(CHUNK_OK, acceptedCount);
      }
    }
  }
}
