// Bytes as they travel in a datagram, the little-endian integers packed into
// them, and the two result types shared by the other modules.
module Bytes {

  type byte = x: int | 0 <= x < 256

  // A Go string: a sequence of bytes with no encoding attached.
  type Text = seq<byte>

  datatype Option<+T> = None | Some(value: T)

  datatype Result<+T, +E> = Ok(value: T) | Err(error: E)

  const UINT32_LIMIT: nat := 0x1_0000_0000

  function Low(n: nat): byte {
    n % 256
  }

  // binary.LittleEndian.AppendUint32
  function PutUint32(n: nat): (r: seq<byte>)
    ensures |r| == 4
  {
    [Low(n), Low(n / 0x100), Low(n / 0x1_0000), Low(n / 0x100_0000)]
  }

  // binary.LittleEndian.Uint32
  function GetUint32(b: seq<byte>): (n: nat)
    requires |b| == 4
    ensures n < UINT32_LIMIT
  {
    b[0] as nat + 0x100 * b[1] as nat + 0x1_0000 * b[2] as nat + 0x100_0000 * b[3] as nat
  }

  lemma Uint32RoundTrip(n: nat)
    requires n < UINT32_LIMIT
    ensures GetUint32(PutUint32(n)) == n
  {
    assert n / 0x1_0000 == n / 0x100 / 0x100;
    assert n / 0x100_0000 == n / 0x1_0000 / 0x100;
  }

  function Zeros(n: nat): (r: seq<byte>)
    ensures |r| == n && forall i :: 0 <= i < n ==> r[i] == 0
  {
    seq(n, i => 0)
  }
}
