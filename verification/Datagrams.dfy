// The upload protocol's requests as datagrams: the network of UploadProtocol
// carries bytes, and what the controller decodes is the request that was sent.
module Datagrams {
  import opened Bytes
  import opened FileNames
  import opened Wire
  import opened Requests
  import opened UploadClient
  import opened UploadProtocol
  import Crc

  predicate IsUpload(q: Request) {
    q.UploadStart? || q.UploadChunk? || q.UploadAbort?
  }

  function TypeOf(q: Request): byte
    requires IsUpload(q)
  {
    if q.UploadStart? then TYPE_UPLOAD_START else if q.UploadChunk? then TYPE_UPLOAD_CHUNK else TYPE_UPLOAD_ABORT
  }

  function PayloadOf(q: Request): seq<byte>
    requires IsUpload(q)
  {
    if q.UploadStart? then StartPayload(q.size, q.path, q.name)
    else if q.UploadChunk? then ChunkPayload(q.index, q.data)
    else Zeros(5)
  }

  function Datagram(q: Request): seq<byte>
    requires IsUpload(q)
  {
    Frame(TypeOf(q), PayloadOf(q))
  }

  // Every request of a valid upload is built without error, and decodes to itself.
  lemma OwnRequestsArrive(u: Upload, q: Request)
    requires u.Valid() && OwnRequest(u, q)
    ensures IsUpload(q)
    ensures DecodeRequest(Datagram(q)) == Ok(q)
    ensures q.UploadStart? ==> EncodeStart(u.Size(), u.dir, u.name) == Ok(Datagram(q))
    ensures q.UploadChunk? ==> EncodeChunk(q.index, q.data) == Ok(Datagram(q))
  {
    if q == u.StartPacket() {
      StartRoundTrip(u.Size(), u.dir, u.name);
    } else if q == UploadAbort {
      AbortRoundTrip();
    } else {
      var i: nat :| i < u.Total() && q == u.ChunkPacket(i);
      ChunkFits(u, i);
      ChunkRoundTrip(i, q.data);
    }
  }

  lemma ChunkFits(u: Upload, i: nat)
    requires u.Valid() && i < u.Total()
    ensures i < UINT32_LIMIT && |u.ChunkPacket(i).data| <= MAX_CHUNK_DATA
  {
    ChunkBounds(u, i);
  }

  // No two requests of an upload look the same on the wire.
  lemma OwnRequestsDiffer(u: Upload, q: Request, r: Request)
    requires u.Valid() && OwnRequest(u, q) && OwnRequest(u, r) && IsUpload(q) && IsUpload(r)
    ensures Datagram(q) == Datagram(r) ==> q == r
  {
    OwnRequestsArrive(u, q);
    OwnRequestsArrive(u, r);
  }

  // A datagram damaged by a burst of up to 16 bits is not taken for any request.
  lemma DamagedRequestsDropped(q: Request, damaged: seq<byte>, p: nat)
    requires IsUpload(q) && Crc.DifferWithin(Octets(Datagram(q)), Octets(damaged), p) && damaged != Datagram(q)
    ensures DecodeRequest(damaged).Err?
  {
    FrameRejected(TypeOf(q), PayloadOf(q), damaged, p);
  }

  lemma FrameRejected(typ: byte, payload: seq<byte>, damaged: seq<byte>, p: nat)
    requires Crc.DifferWithin(Octets(Frame(typ, payload)), Octets(damaged), p) && damaged != Frame(typ, payload)
    ensures DecodeRequest(damaged).Err?
  {
    BurstRejected(typ, payload, damaged, p);
  }
}
