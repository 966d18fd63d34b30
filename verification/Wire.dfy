// Datagram framing (internal/masso/frame.go) and the client-to-controller
// requests (internal/masso/request.go).
module Wire {
  import opened Bytes
  import opened FileNames
  import opened Binary
  import Crc

  const MAX_CHUNK_DATA: nat := 1422
  const HEADER: seq<byte> := [0x03, 0x00] // the magic

  const TYPE_STATUS: byte := 0x01
  const TYPE_DISCOVERY: byte := 0x02
  const TYPE_CONFIG: byte := 0x03
  const TYPE_TOOL: byte := 0x08
  const TYPE_UPLOAD_START: byte := 0x0A
  const TYPE_UPLOAD_CHUNK: byte := 0x0B
  const TYPE_UPLOAD_ABORT: byte := 0x0C

  datatype Error =
    | ShortPacket | BadMagic | BadCRC
    | UnknownType | BadLength | Malformed | ChunkTooLarge
    | BadFileName | BadUploadDir

  datatype Request =
    | Discovery(replyPort: nat)
    | Config(hour: byte, minute: byte, second: byte, day: byte, month: byte, year: byte)
    | Keepalive(kHour: byte, kMinute: byte, kSecond: byte, kDay: byte, kMonth: byte)
    | ToolQuery(tool: byte)
    | UploadStart(size: nat, path: Text, name: Text)
    | UploadChunk(index: nat, data: seq<byte>)
    | UploadAbort

  // --- Framing -------------------------------------------------------------

  function Octets(s: seq<byte>): (r: seq<bv8>)
    ensures |r| == |s| && forall i :: 0 <= i < |s| ==> r[i] == Octet(s[i])
  {
    seq(|s|, i requires 0 <= i < |s| => Octet(s[i]))
  }

  function Checksum(body: seq<byte>): (c: nat)
    ensures c < 0x1_0000
  {
    RegisterValue(Crc.Sum(Octets(body)))
  }

  function RoundUp4(n: nat): (r: nat)
    ensures n <= r < n + 4 && r % 4 == 0
  {
    (n + 3) / 4 * 4
  }

  // The zeros that bring the body to a multiple of four bytes.
  function Padding(payload: seq<byte>): (r: seq<byte>)
    ensures (3 + |payload| + |r|) % 4 == 0 && |r| < 4
  {
    Zeros(RoundUp4(3 + |payload|) - 3 - |payload|)
  }

  function Body(typ: byte, payload: seq<byte>): (r: seq<byte>)
    ensures |r| == RoundUp4(3 + |payload|)
  {
    HEADER + [typ] + payload + Padding(payload)
  }

  function Packet(body: seq<byte>): (r: seq<byte>)
    ensures |r| == 2 + |body|
  {
    [Checksum(body) % 256, Checksum(body) / 256] + body
  }

  function Frame(typ: byte, payload: seq<byte>): seq<byte> {
    Packet(Body(typ, payload))
  }

  // The type byte and everything after it.
  function Parse(pkt: seq<byte>): Result<(byte, seq<byte>), Error> {
    if |pkt| < 5 then Err(ShortPacket)
    else if pkt[2..4] != HEADER then Err(BadMagic)
    else if pkt[0] + 256 * pkt[1] as nat != Checksum(pkt[2..]) then Err(BadCRC)
    else Ok((pkt[4], pkt[5..]))
  }

  // copy(dst[at:], src)
  method Copy(dst: array<byte>, at: nat, src: seq<byte>)
    requires at + |src| <= dst.Length
    modifies dst
    ensures dst[..] == old(dst[..at]) + src + old(dst[at + |src|..])
  {
    for i := 0 to |src|
      invariant forall k :: 0 <= k < dst.Length ==>
        dst[k] == if at <= k < at + i then src[k - at] else old(dst[k])
    {
      dst[at + i] := src[i];
    }
    assert dst[..at] == old(dst[..at]) && dst[at..at + |src|] == src && dst[at + |src|..] == old(dst[at + |src|..]);
    assert dst[..] == dst[..at] + dst[at..at + |src|] + dst[at + |src|..];
  }

  // The body: header, type and payload copied into a zeroed buffer.
  method BuildBody(typ: byte, payload: seq<byte>) returns (body: array<byte>)
    ensures fresh(body) && body[..] == Body(typ, payload)
  {
    var n := RoundUp4(3 + |payload|);
    body := new byte[n](i => 0);
    assert body[..] == Zeros(n);
    Copy(body, 0, HEADER + [typ]);
    assert body[..] == HEADER + [typ] + Zeros(n - 3);
    Copy(body, 3, payload);
    assert body[..] == Body(typ, payload);
  }

  // frame: the body and its CRC copied into a zeroed buffer.
  method BuildFrame(typ: byte, payload: seq<byte>) returns (pkt: array<byte>)
    ensures fresh(pkt) && pkt[..] == Frame(typ, payload)
  {
    var body := BuildBody(typ, payload);
    var octets := Octets(body[..]);
    var crc := Crc.Crc16XModem(octets);
    pkt := new byte[2 + body.Length](i => 0);
    var sum := RegisterValue(crc);
    Copy(pkt, 0, [sum % 256, sum / 256]);
    Copy(pkt, 2, body[..]);
    assert pkt[..] == [sum % 256, sum / 256] + body[..];
  }

  lemma ParseFrame(typ: byte, payload: seq<byte>)
    ensures Parse(Frame(typ, payload)) == Ok((typ, payload + Padding(payload)))
  {
    var body := Body(typ, payload);
    var pkt := Frame(typ, payload);
    assert pkt[2..] == body;
    assert pkt[2..4] == body[0..2] == HEADER;
    assert body == (HEADER + [typ]) + (payload + Padding(payload));
    assert pkt[5..] == body[3..] == payload + Padding(payload);
  }

  // Any burst of at most 16 bits, wherever it falls in the datagram, is
  // detected.
  lemma BurstRejected(typ: byte, payload: seq<byte>, damaged: seq<byte>, p: nat)
    requires Crc.DifferWithin(Octets(Frame(typ, payload)), Octets(damaged), p)
    requires damaged != Frame(typ, payload)
    ensures Parse(damaged).Err?
  {
    var pkt := Frame(typ, payload);
    assert |damaged| == |pkt|;
    if damaged[2..4] == HEADER {
      assert pkt[2..4] == Body(typ, payload)[..2] == HEADER;
      assert pkt[2..] == Body(typ, payload);
      DamagedSum(pkt, damaged, p);
      NumberOfBytes(pkt, damaged);
    }
  }

  // Two datagrams with the same magic that differ by a burst: either the CRC
  // fields agree and the checksums do not, or the other way round.
  lemma DamagedSum(pkt: seq<byte>, damaged: seq<byte>, p: nat)
    requires Crc.DifferWithin(Octets(pkt), Octets(damaged), p)
    requires |pkt| == |damaged| && |pkt| >= 5 && pkt != damaged
    requires pkt[2..4] == damaged[2..4]
    ensures pkt[..2] == damaged[..2] <==> Checksum(pkt[2..]) != Checksum(damaged[2..])
  {
    OctetsSlice(pkt);
    OctetsSlice(damaged);
    OctetsInjective(pkt, damaged);
    OctetsInjective(pkt[2..4], damaged[2..4]);
    OctetsInjective(pkt[..2], damaged[..2]);
    Crc.DamagedTail(Octets(pkt), Octets(damaged), p);
    RegisterValueInjective(Crc.Sum(Octets(pkt)[2..]), Crc.Sum(Octets(damaged)[2..]));
  }

  lemma OctetsSlice(s: seq<byte>)
    requires |s| >= 4
    ensures Octets(s)[2..] == Octets(s[2..]) && Octets(s)[..2] == Octets(s[..2])
    ensures Octets(s)[2..4] == Octets(s[2..4])
  {
  }

  lemma NumberOfBytes(a: seq<byte>, b: seq<byte>)
    requires |a| >= 2 && |b| >= 2
    ensures a[0] + 256 * a[1] as nat == b[0] + 256 * b[1] as nat <==> a[..2] == b[..2]
  {
    assert a[..2] == [a[0], a[1]] && b[..2] == [b[0], b[1]];
  }

  lemma OctetsInjective(a: seq<byte>, b: seq<byte>)
    ensures Octets(a) == Octets(b) <==> a == b
  {
    if |a| == |b| {
      forall i | 0 <= i < |a| ensures Octets(a)[i] == Octets(b)[i] <==> a[i] == b[i] { OctetInjective(a[i], b[i]); }
    }
  }
}
