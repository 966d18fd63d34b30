// Where each field lies in a datagram (internal/masso/frame.go and
// internal/masso/request.go), counted from its first byte.
module Layouts {
  import opened Bytes
  import opened FileNames
  import opened Wire
  import opened Requests

  function Word(pkt: seq<byte>, at: nat): nat
    requires at + 4 <= |pkt|
  {
    pkt[at] as nat + 0x100 * pkt[at + 1] as nat + 0x1_0000 * pkt[at + 2] as nat + 0x100_0000 * pkt[at + 3] as nat
  }

  // After the CRC: magic, type, payload, and zeros up to a multiple of four.
  ghost predicate Framed(pkt: seq<byte>, typ: byte, payload: seq<byte>) {
    var end := 5 + |payload|;
    && end <= |pkt| < end + 4 && (|pkt| - 2) % 4 == 0
    && pkt[2] == 0x03 && pkt[3] == 0x00 && pkt[4] == typ
    && pkt[5..end] == payload
    && forall i :: end <= i < |pkt| ==> pkt[i] == 0
  }

  lemma FrameLayout(typ: byte, payload: seq<byte>)
    ensures Framed(Frame(typ, payload), typ, payload)
  {
    BodyFramed(Frame(typ, payload), typ, payload, Padding(payload));
  }

  lemma BodyFramed(pkt: seq<byte>, typ: byte, payload: seq<byte>, padding: seq<byte>)
    requires |pkt| >= 2 && pkt[2..] == [0x03, 0x00] + [typ] + payload + padding
    requires (3 + |payload| + |padding|) % 4 == 0 && |padding| < 4 && forall i :: 0 <= i < |padding| ==> padding[i] == 0
    ensures Framed(pkt, typ, payload)
  {
    var body := pkt[2..];
    assert body[0] == 0x03 && body[1] == 0x00 && body[2] == typ && body[3..] == payload + padding;
    assert pkt[5..] == payload + padding;
    forall i | 5 + |payload| <= i < |pkt| ensures pkt[i] == 0 { assert pkt[i] == pkt[5..][i - 5]; }
  }

  // The CRC of all that follows it, low byte first.
  lemma FrameSum(typ: byte, payload: seq<byte>)
    ensures var pkt := Frame(typ, payload);
            pkt[0] as nat + 0x100 * pkt[1] as nat == Checksum(pkt[2..])
  {
    assert Frame(typ, payload)[2..] == Body(typ, payload);
  }

  lemma PayloadByte(pkt: seq<byte>, typ: byte, payload: seq<byte>, i: nat)
    requires Framed(pkt, typ, payload) && i < |payload|
    ensures pkt[5 + i] == payload[i]
  {
    assert pkt[5..5 + |payload|][i] == payload[i];
  }

  lemma PutWord(n: nat, payload: seq<byte>, at: nat)
    requires n < UINT32_LIMIT && at + 4 <= |payload| && payload[at..at + 4] == PutUint32(n)
    ensures Word(payload, at) == n
  {
    Uint32RoundTrip(n);
    assert payload[at..at + 4] == [payload[at], payload[at + 1], payload[at + 2], payload[at + 3]];
  }

  lemma WordInFrame(pkt: seq<byte>, typ: byte, payload: seq<byte>, at: nat)
    requires Framed(pkt, typ, payload) && at + 4 <= |payload|
    ensures Word(pkt, 5 + at) == Word(payload, at)
  {
    forall i | at <= i < at + 4 ensures pkt[5 + i] == payload[i] { PayloadByte(pkt, typ, payload, i); }
  }

  // An upload start: the size, two reserved bytes, the length of the path, the
  // path and the name each ended by a zero, three reserved bytes.
  ghost predicate StartFieldsAt(pkt: seq<byte>, size: nat, path: Text, name: Text) {
    var afterPath := 12 + |path|;
    var afterName := afterPath + 1 + |name|;
    && afterName + 4 <= |pkt| && pkt[4] == 0x0A && Word(pkt, 5) == size
    && pkt[9] == 0 && pkt[10] == 0 && pkt[11] == |path|
    && pkt[12..afterPath] == path && pkt[afterPath] == 0
    && pkt[afterPath + 1..afterName] == name
    && forall i :: afterName <= i < |pkt| ==> pkt[i] == 0
  }

  lemma StartLayout(size: nat, dir: Text, name: Text)
    requires size < UINT32_LIMIT && ValidUploadDir(dir) && ValidFileName(name)
    ensures var pkt := EncodeStart(size, dir, name);
            pkt.Ok? && StartFieldsAt(pkt.value, size, if dir == [] then [0x5C] else dir, name)
  {
    var path := PathField(dir);
    var payload := StartPayload(size, path, name);
    var pkt := Frame(TYPE_UPLOAD_START, payload);
    FrameLayout(TYPE_UPLOAD_START, payload);
    assert payload[0..4] == PutUint32(size);
    PutWord(size, payload, 0);
    WordInFrame(pkt, TYPE_UPLOAD_START, payload, 0);
    StartPieces(pkt, size, path, name);
  }

  lemma StartPieces(pkt: seq<byte>, size: nat, path: Text, name: Text)
    requires |path| < 256 && Framed(pkt, 0x0A, StartPayload(size, path, name)) && Word(pkt, 5) == size
    ensures StartFieldsAt(pkt, size, path, name)
  {
    var payload := StartPayload(size, path, name);
    PayloadPieces(size, path, name);
    forall i | 0 <= i < |payload| ensures pkt[5 + i] == payload[i] { PayloadByte(pkt, 0x0A, payload, i); }
    PayloadSlice(pkt, 0x0A, payload, 7, 7 + |path|);
    PayloadSlice(pkt, 0x0A, payload, 8 + |path|, 8 + |path| + |name|);
    var afterName := 13 + |path| + |name|;
    forall i | afterName <= i < |pkt| ensures pkt[i] == 0 {
      if i < afterName + 4 { assert pkt[5 + (i - 5)] == payload[i - 5]; }
    }
  }

  lemma PayloadSlice(pkt: seq<byte>, typ: byte, payload: seq<byte>, i: nat, j: nat)
    requires Framed(pkt, typ, payload) && i <= j <= |payload|
    ensures pkt[5 + i..5 + j] == payload[i..j]
  {
    var a, b := pkt[5 + i..5 + j], payload[i..j];
    forall k | 0 <= k < j - i ensures a[k] == b[k] { PayloadByte(pkt, typ, payload, i + k); }
    assert a == b;
  }

  lemma PayloadPieces(size: nat, path: Text, name: Text)
    requires |path| < 256
    ensures var p := StartPayload(size, path, name);
            && |p| == 8 + |path| + |name| + 4 && p[4] == 0 && p[5] == 0 && p[6] == |path|
            && p[7..7 + |path|] == path && p[7 + |path|] == 0
            && p[8 + |path|..8 + |path| + |name|] == name
            && forall i :: 8 + |path| + |name| <= i < |p| ==> p[i] == 0
  {
  }

  // An upload chunk: its number, its length, its bytes.
  lemma ChunkLayout(index: nat, data: seq<byte>)
    requires index < UINT32_LIMIT && |data| <= 1422
    ensures var pkt := EncodeChunk(index, data);
            && pkt.Ok? && 13 + |data| <= |pkt.value| < 17 + |data| && pkt.value[4] == 0x0B
            && Word(pkt.value, 5) == index && Word(pkt.value, 9) == |data|
            && pkt.value[13..13 + |data|] == data
  {
    var payload := ChunkPayload(index, data);
    var pkt := Frame(TYPE_UPLOAD_CHUNK, payload);
    FrameLayout(TYPE_UPLOAD_CHUNK, payload);
    assert payload[0..4] == PutUint32(index) && payload[4..8] == PutUint32(|data|) && payload[8..] == data;
    PutWord(index, payload, 0);
    PutWord(|data|, payload, 4);
    WordInFrame(pkt, TYPE_UPLOAD_CHUNK, payload, 0);
    WordInFrame(pkt, TYPE_UPLOAD_CHUNK, payload, 4);
    assert pkt[5..5 + |payload|] == payload;
    assert pkt[13..13 + |data|] == payload[8..];
  }

  // An upload abort: five zeros and their padding.
  lemma AbortLayout()
    ensures var pkt := EncodeAbort();
            |pkt| == 10 && pkt[4] == 0x0C && forall i :: 5 <= i < 10 ==> pkt[i] == 0
  {
    FrameLayout(TYPE_UPLOAD_ABORT, Zeros(5));
    var pkt := EncodeAbort();
    assert pkt[5..10] == Zeros(5);
  }

  // What cannot be encoded, and why.
  lemma Refused(size: nat, dir: Text, name: Text, index: nat, data: seq<byte>)
    ensures EncodeStart(size, dir, name).Err? <==> !ValidFileName(name) || !ValidUploadDir(dir)
    ensures !ValidFileName(name) ==> EncodeStart(size, dir, name) == Err(BadFileName)
    ensures ValidFileName(name) && !ValidUploadDir(dir) ==> EncodeStart(size, dir, name) == Err(BadUploadDir)
    ensures EncodeChunk(index, data).Err? <==> |data| > 1422
    ensures |data| > 1422 ==> EncodeChunk(index, data) == Err(ChunkTooLarge)
  {
  }

  lemma BodyRead(typ: byte, payload: seq<byte>, body: seq<byte>)
    requires body == payload + Padding(payload)
    ensures DecodeRequest(Frame(typ, payload)) == DecodeBody(typ, body)
    ensures |body| >= |payload| && forall i :: 0 <= i < |payload| ==> body[i] == payload[i]
  {
    ParseFrame(typ, payload);
  }

  // The other requests of the client, framed as it frames them, are read back.
  lemma DiscoveryReadBack(low: byte, high: byte)
    ensures DecodeRequest(Frame(0x02, [low, high, 0, 0, 0])) == Ok(Discovery(low + 0x100 * high as nat))
  {
    var payload: seq<byte> := [low, high, 0, 0, 0];
    var body := payload + Padding(payload);
    BodyRead(0x02, payload, body);
    DiscoveryBody(body, low, high);
  }

  lemma DiscoveryBody(body: seq<byte>, low: byte, high: byte)
    requires |body| >= 2 && body[0] == low && body[1] == high
    ensures DecodeBody(0x02, body) == Ok(Discovery(low + 0x100 * high as nat))
  {
  }

  lemma ConfigReadBack(a: byte, b: byte, c: byte, d: byte, e: byte, f: byte)
    ensures DecodeRequest(Frame(0x03, [a, b, c, d, e, f, 0, 0, 0])) == Ok(Config(a, b, c, d, e, f))
  {
    var payload: seq<byte> := [a, b, c, d, e, f, 0, 0, 0];
    BodyRead(0x03, payload, payload + Padding(payload));
  }

  lemma KeepaliveReadBack(a: byte, b: byte, c: byte, d: byte, e: byte)
    ensures DecodeRequest(Frame(0x01, [a, b, c, d, e])) == Ok(Keepalive(a, b, c, d, e))
  {
    var payload: seq<byte> := [a, b, c, d, e];
    BodyRead(0x01, payload, payload + Padding(payload));
  }

  lemma ToolQueryReadBack(tool: byte)
    ensures DecodeRequest(Frame(0x08, [tool, 0, 0, 0, 0])) == Ok(ToolQuery(tool))
  {
    var payload: seq<byte> := [tool, 0, 0, 0, 0];
    BodyRead(0x08, payload, payload + Padding(payload));
  }

  // A well-framed datagram is still refused if its type is unknown, if it claims
  // a chunk that is too large or longer than itself, or if it names a file that
  // could not have been sent.
  lemma ReadsOnlyWhatCanBeSent(pkt: seq<byte>)
    ensures DecodeRequest(pkt).Ok? ==>
              && Parse(pkt).Ok? && 0x01 <= pkt[4] <= 0x0C
              && var q := DecodeRequest(pkt).value;
                 && (q.UploadStart? ==> ValidFileName(q.name) && q.size < UINT32_LIMIT && |q.path| < 256)
                 && (q.UploadChunk? ==> |q.data| <= 1422 && |q.data| + 13 <= |pkt| && q.index < UINT32_LIMIT)
  {
  }

  // Why a datagram is refused before its body is looked at.
  lemma ParseExact(pkt: seq<byte>)
    ensures Parse(pkt) ==
            if |pkt| < 5 then Err(ShortPacket)
            else if pkt[2] != 0x03 || pkt[3] != 0x00 then Err(BadMagic)
            else if pkt[0] as nat + 0x100 * pkt[1] as nat != Checksum(pkt[2..]) then Err(BadCRC)
            else Ok((pkt[4], pkt[5..]))
  {
    if |pkt| >= 5 { assert pkt[2..4] == [pkt[2], pkt[3]]; }
  }

  // And why the body of an upload request is.
  lemma BodyRefused(body: seq<byte>)
    ensures |body| < 7 ==> DecodeStart(body) == Err(BadLength)
    ensures |body| >= 7 && |body| < 8 + body[6] as nat ==> DecodeStart(body) == Err(Malformed)
    ensures |body| >= 7 && |body| >= 8 + body[6] as nat && DecodeStart(body).Err? ==> DecodeStart(body) == Err(BadFileName)
    ensures |body| < 8 ==> DecodeChunk(body) == Err(BadLength)
    ensures |body| >= 8 && Word(body, 4) > 1422 ==> DecodeChunk(body) == Err(ChunkTooLarge)
    ensures |body| >= 8 && Word(body, 4) <= 1422 ==>
              (DecodeChunk(body).Err? <==> 8 + Word(body, 4) > |body|)
              && (8 + Word(body, 4) > |body| ==> DecodeChunk(body) == Err(Malformed))
  {
    if |body| >= 8 { assert body[4..8] == [body[4], body[5], body[6], body[7]]; }
  }
}
