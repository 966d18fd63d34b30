// Client-to-controller requests (internal/masso/request.go): what UploadStart,
// UploadChunk and UploadAbort encode, what DecodeRequest makes of a datagram.
module Requests {
  import opened Bytes
  import opened FileNames
  import opened Wire

  // --- Encoding ------------------------------------------------------------

  function StartPayload(size: nat, path: Text, name: Text): seq<byte> {
    PutUint32(size) + [0, 0, |path| % 256] + path + [0] + name + [0] + Zeros(3)
  }

  function EncodeStart(size: nat, dir: Text, name: Text): Result<seq<byte>, Error> {
    if !ValidFileName(name) then Err(BadFileName)
    else if !ValidUploadDir(dir) then Err(BadUploadDir)
    else Ok(Frame(TYPE_UPLOAD_START, StartPayload(size, PathField(dir), name)))
  }

  function ChunkPayload(index: nat, data: seq<byte>): seq<byte> {
    PutUint32(index) + PutUint32(|data|) + data
  }

  function EncodeChunk(index: nat, data: seq<byte>): Result<seq<byte>, Error> {
    if |data| > MAX_CHUNK_DATA then Err(ChunkTooLarge)
    else Ok(Frame(TYPE_UPLOAD_CHUNK, ChunkPayload(index, data)))
  }

  function EncodeAbort(): seq<byte> {
    Frame(TYPE_UPLOAD_ABORT, Zeros(5))
  }

  // UploadStart: the payload grows field by field.
  method BuildStart(size: nat, dir: Text, name: Text) returns (r: Result<seq<byte>, Error>)
    requires size < UINT32_LIMIT
    ensures r == EncodeStart(size, dir, name)
  {
    if !ValidFileName(name) {
      return Err(BadFileName);
    }
    if !ValidUploadDir(dir) {
      return Err(BadUploadDir);
    }
    var path := dir;
    if path == [] {
      path := [BACKSLASH];
    }
    var payload: seq<byte> := PutUint32(size);
    payload := payload + [0, 0];
    payload := payload + [|path| % 256];
    payload := payload + path;
    payload := payload + [0];
    payload := payload + name;
    payload := payload + [0];
    payload := payload + Zeros(3);
    assert payload == StartPayload(size, PathField(dir), name);
    var pkt := BuildFrame(TYPE_UPLOAD_START, payload);
    r := Ok(pkt[..]);
  }

  // UploadChunk: the fields are written into one zeroed buffer.
  method BuildChunk(index: nat, data: seq<byte>) returns (r: Result<seq<byte>, Error>)
    requires index < UINT32_LIMIT
    ensures r == EncodeChunk(index, data)
  {
    if |data| > MAX_CHUNK_DATA {
      return Err(ChunkTooLarge);
    }
    var payload := new byte[8 + |data|](i => 0);
    Copy(payload, 0, PutUint32(index));
    Copy(payload, 4, PutUint32(|data|));
    assert payload[..8] == PutUint32(index) + PutUint32(|data|);
    Copy(payload, 8, data);
    assert payload[..] == ChunkPayload(index, data);
    var pkt := BuildFrame(TYPE_UPLOAD_CHUNK, payload[..]);
    r := Ok(pkt[..]);
  }

  // --- Decoding ------------------------------------------------------------

  function DecodeRequest(pkt: seq<byte>): Result<Request, Error> {
    match Parse(pkt)
    case Err(e) => Err(e)
    case Ok((typ, body)) => DecodeBody(typ, body)
  }

  function DecodeBody(typ: byte, body: seq<byte>): Result<Request, Error> {
    if typ == TYPE_DISCOVERY then
      if |body| < 2 then Err(BadLength) else Ok(Discovery(body[0] + 256 * body[1] as nat))
    else if typ == TYPE_CONFIG then
      if |body| < 6 then Err(BadLength) else Ok(Config(body[0], body[1], body[2], body[3], body[4], body[5]))
    else if typ == TYPE_STATUS then
      if |body| < 5 then Err(BadLength) else Ok(Keepalive(body[0], body[1], body[2], body[3], body[4]))
    else if typ == TYPE_TOOL then
      if |body| < 1 then Err(BadLength) else Ok(ToolQuery(body[0]))
    else if typ == TYPE_UPLOAD_START then DecodeStart(body)
    else if typ == TYPE_UPLOAD_CHUNK then DecodeChunk(body)
    else if typ == TYPE_UPLOAD_ABORT then Ok(UploadAbort)
    else Err(UnknownType)
  }

  function DecodeStart(body: seq<byte>): Result<Request, Error> {
    if |body| < 7 then Err(BadLength)
    else
      var pathLen: nat := body[6];
      var nameStart := 7 + pathLen + 1;
      if |body| < nameStart then Err(Malformed)
      else
        var rest := body[nameStart..];
        var name := rest[..IndexOf(rest, 0)];
        if !ValidFileName(name) then Err(BadFileName)
        else Ok(UploadStart(GetUint32(body[..4]), body[7..7 + pathLen], name))
  }

  function DecodeChunk(body: seq<byte>): Result<Request, Error> {
    if |body| < 8 then Err(BadLength)
    else
      var length := GetUint32(body[4..8]);
      if length > MAX_CHUNK_DATA then Err(ChunkTooLarge)
      else if 8 + length > |body| then Err(Malformed)
      else Ok(UploadChunk(GetUint32(body[..4]), body[8..8 + length]))
  }

  // --- Round trips -----------------------------------------------------------

  lemma StartRoundTrip(size: nat, dir: Text, name: Text)
    requires size < UINT32_LIMIT && ValidUploadDir(dir) && ValidFileName(name)
    ensures var pkt := EncodeStart(size, dir, name);
            pkt.Ok? && DecodeRequest(pkt.value) == Ok(UploadStart(size, PathField(dir), name))
  {
    var payload := StartPayload(size, PathField(dir), name);
    ParseFrame(TYPE_UPLOAD_START, payload);
    StartFields(size, PathField(dir), name, Padding(payload));
    Uint32RoundTrip(size);
    DecodeParsed(Frame(TYPE_UPLOAD_START, payload), TYPE_UPLOAD_START, payload + Padding(payload));
  }

  lemma DecodeParsed(pkt: seq<byte>, typ: byte, body: seq<byte>)
    ensures Parse(pkt) == Ok((typ, body)) && typ == TYPE_UPLOAD_START ==> DecodeRequest(pkt) == DecodeStart(body)
    ensures Parse(pkt) == Ok((typ, body)) && typ == TYPE_UPLOAD_CHUNK ==> DecodeRequest(pkt) == DecodeChunk(body)
    ensures Parse(pkt) == Ok((typ, body)) && typ == TYPE_UPLOAD_ABORT ==> DecodeRequest(pkt) == Ok(UploadAbort)
  {
  }

  lemma Thirds<T>(a: seq<T>, b: seq<T>, c: seq<T>)
    ensures (a + b + c)[..|a|] == a && (a + b + c)[|a|..|a| + |b|] == b && (a + b + c)[|a| + |b|..] == c
  {
  }

  lemma StartFields(size: nat, path: Text, name: Text, pad: seq<byte>)
    requires |path| < 256 && ValidFileName(name)
    ensures var body := StartPayload(size, path, name) + pad;
            DecodeStart(body) == Ok(UploadStart(GetUint32(PutUint32(size)), path, name))
  {
    var body := StartPayload(size, path, name) + pad;
    var head := PutUint32(size) + [0, 0, |path| % 256];
    var tail := [0] + Zeros(3) + pad;
    var rest := name + tail;
    assert body == head + path + ([0] + rest);
    Thirds(head, path, [0] + rest);
    assert body[..4] == PutUint32(size) && body[6] == |path| && body[7..7 + |path|] == path;
    assert body[7 + |path| + 1..] == rest by {
      assert body[7 + |path|..] == [0] + rest;
    }
    NameEndsAtNul(name, tail);
    assert rest[..|name|] == name;
  }

  lemma {:induction false} NameEndsAtNul(name: Text, tail: seq<byte>)
    requires 0 !in name && |tail| > 0 && tail[0] == 0
    ensures IndexOf(name + tail, 0) == |name|
    decreases |name|
  {
    if name == [] {
      assert name + tail == tail;
    } else {
      assert (name + tail)[1..] == name[1..] + tail;
      NameEndsAtNul(name[1..], tail);
    }
  }

  lemma ChunkRoundTrip(index: nat, data: seq<byte>)
    requires index < UINT32_LIMIT && |data| <= MAX_CHUNK_DATA
    ensures var pkt := EncodeChunk(index, data);
            pkt.Ok? && DecodeRequest(pkt.value) == Ok(UploadChunk(index, data))
  {
    var payload := ChunkPayload(index, data);
    ParseFrame(TYPE_UPLOAD_CHUNK, payload);
    ChunkFields(index, data, Padding(payload));
    DecodeParsed(Frame(TYPE_UPLOAD_CHUNK, payload), TYPE_UPLOAD_CHUNK, payload + Padding(payload));
  }

  lemma ChunkFields(index: nat, data: seq<byte>, pad: seq<byte>)
    requires index < UINT32_LIMIT && |data| <= MAX_CHUNK_DATA
    ensures DecodeChunk(ChunkPayload(index, data) + pad) == Ok(UploadChunk(index, data))
  {
    var body := ChunkPayload(index, data) + pad;
    assert body[..4] == PutUint32(index);
    assert body[4..8] == PutUint32(|data|);
    assert body[8..8 + |data|] == data;
    Uint32RoundTrip(index);
    Uint32RoundTrip(|data|);
  }

  lemma AbortRoundTrip()
    ensures DecodeRequest(EncodeAbort()) == Ok(UploadAbort)
  {
    ParseFrame(TYPE_UPLOAD_ABORT, Zeros(5));
    DecodeParsed(EncodeAbort(), TYPE_UPLOAD_ABORT, Zeros(5) + Padding(Zeros(5)));
  }

  // Encoding is injective: equal datagrams carry equal requests.
  lemma EncodingsDistinct(i: nat, x: seq<byte>, j: nat, y: seq<byte>)
    requires i < UINT32_LIMIT && j < UINT32_LIMIT && |x| <= MAX_CHUNK_DATA && |y| <= MAX_CHUNK_DATA
    ensures EncodeChunk(i, x) == EncodeChunk(j, y) ==> i == j && x == y
  {
    ChunkRoundTrip(i, x);
    ChunkRoundTrip(j, y);
  }
}
