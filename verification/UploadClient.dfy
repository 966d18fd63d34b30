// The client's side of an upload (internal/masso/upload.go). Times are in
// nanoseconds. Each function here is one turn of a loop in the source, given
// what the clock, the socket and the reader answer in that turn; the methods
// run the loops themselves on local variables.
module UploadClient {
  import opened Bytes
  import opened FileNames
  import opened Wire
  import opened Controller

  const MILLISECOND: int := 1_000_000
  const INITIAL_SRTT: int := 60 * MILLISECOND
  const MIN_RTO: int := 40 * MILLISECOND
  const MAX_RTO: int := 250 * MILLISECOND
  const MAX_WINDOW: nat := 2
  const CLEAN_STREAK_TO_OPEN: nat := 3
  const ABORT_NOTIFICATIONS: nat := 3

  datatype Failure =
    | FileTooLarge | NotConnected | Busy | BadName | BadDir | ContextDone
    | NoResponse | ReadFailed | NoUSB | TransferOpen | TransferFailed | USBWrite | CanceledOnMasso

  datatype Outcome = Nil | Failed(f: Failure)

  // One call of Upload: its arguments and the client's timing options.
  datatype Upload = Upload(
    dir: Text, name: Text, content: seq<byte>,
    startRetransmit: int, startTimeout: int, stallTimeout: int)
  {
    function Path(): Text { JoinUploadPath(PathField(dir), name) }

    function Size(): nat { |content| }

    // The number of chunks.
    function Total(): nat { (|content| + MAX_CHUNK_DATA - 1) / MAX_CHUNK_DATA }

    function Offset(i: nat): (o: nat)
      ensures o <= |content|
    {
      if i * MAX_CHUNK_DATA <= |content| then i * MAX_CHUNK_DATA else |content|
    }

    function StartPacket(): Request { UploadStart(Size(), PathField(dir), name) }

    function ChunkPacket(i: nat): Request { UploadChunk(i, content[Offset(i)..Offset(i + 1)]) }

    function ChunkSize(i: nat): nat { Offset(i + 1) - Offset(i) }

    function Sending(): Job { Job(Total(), ChunkPacket, ChunkSize, stallTimeout) }

    // What Upload checks before it sends anything, and its callers' options.
    predicate Valid() {
      && ValidUploadDir(dir) && ValidFileName(name) && |content| < UINT32_LIMIT
      && 0 < startRetransmit && 0 < startTimeout && 0 < stallTimeout
    }
  }

  function Min(a: int, b: int): int { if a <= b then a else b }

  function Max(a: int, b: int): int { if a >= b then a else b }

  // Go's division of a duration truncates toward zero.
  function Quarter(d: int): int { if d >= 0 then d / 4 else -((-d) / 4) }

  function RetransmitTimeout(srtt: int): int { Min(Max(2 * srtt, MIN_RTO), MAX_RTO) }

  function SmoothRTT(srtt: int, sample: int): int { Quarter(3 * srtt + sample) }

  // --- Starting ------------------------------------------------------------

  datatype StartEvent = Silence | Cancellation | Answer(result: byte)

  // One turn of startUpload's loop: the clock at its top, what the select
  // found, and the clock after it.
  datatype StartObs = StartObs(now: int, event: StartEvent, after: int)

  datatype Starting = Starting(resends: nat, nextResend: int, giveUp: int)

  datatype StartTurn =
    | Again(s: Starting, resent: bool)
    | Started(at: int)
    | StartFailed(f: Failure)

  function StartAckError(result: byte): Outcome {
    if result == START_OK then Nil
    else if result == START_NO_USB then Failed(NoUSB)
    else if result == START_ALREADY_STARTED then Failed(TransferOpen)
    else Failed(TransferFailed)
  }

  function JudgeStart(result: byte, resends: nat, at: int): StartTurn {
    if result == START_ALREADY_STARTED && resends > 0 then Started(at)
    else match StartAckError(result)
      case Nil => Started(at)
      case Failed(f) => StartFailed(f)
  }

  function TurnStart(u: Upload, s: Starting, o: StartObs): StartTurn {
    if o.now >= s.giveUp then StartFailed(NoResponse)
    else if o.now >= s.nextResend then
      match o.event
      case Answer(result) => JudgeStart(result, s.resends, o.after)
      case _ => Again(Starting(s.resends + 1, o.now + u.startRetransmit, s.giveUp), true)
    else
      match o.event
      case Silence => Again(s, false)
      case Cancellation => StartFailed(ContextDone)
      case Answer(result) => JudgeStart(result, s.resends, o.after)
  }

  // --- Sending chunks --------------------------------------------------------

  // What sendChunks needs of an upload: how many chunks there are, the request
  // carrying each, how many bytes each takes from the reader.
  datatype Job = Job(total: nat, packet: nat -> Request, size: nat -> nat, stallTimeout: int)

  datatype Flight = Flight(pkt: Request, sentAt: int, retransmitted: bool)

  datatype Window = Window(
    accepted: nat, next: nat, window: nat, streak: nat, srtt: int, lastActivity: int, flight: seq<Flight>)

  datatype ReadError = NoError | EndOfFile | OtherError

  datatype ChunkAckSeen = NoAck | GotAck(result: byte, accepted: nat)

  // One turn of sendChunks' loop: the clock, the outcome of ReadAt if the turn
  // sends a new chunk, and the ACK the turn found waiting, if any.
  datatype Obs = Obs(now: int, read: nat, readErr: ReadError, ack: ChunkAckSeen)

  datatype ChunkTurn =
    | Continue(w: Window, sent: seq<Request>)
    | Return(outcome: Outcome)

  function InitialWindow(startAckAt: int): Window {
    Window(0, 0, 1, 0, INITIAL_SRTT, startAckAt, [])
  }

  // The flight carries the chunks from base on.
  ghost predicate CarriesFrom(j: Job, flight: seq<Flight>, base: nat) {
    forall i :: 0 <= i < |flight| ==> flight[i].pkt == j.packet(base + i)
  }

  // What every reachable window satisfies.
  ghost predicate WellFormed(j: Job, w: Window) {
    && w.accepted <= w.next <= j.total
    && (w.window == 1 || w.window == MAX_WINDOW)
    && |w.flight| == w.next - w.accepted <= MAX_WINDOW
    && CarriesFrom(j, w.flight, w.accepted)
  }

  predicate CanFill(j: Job, w: Window) {
    w.next < j.total && w.next < w.accepted + w.window
  }

  // readChunk fails on a short read and on any error but io.EOF.
  predicate ReadFails(j: Job, index: nat, o: Obs) {
    o.read < j.size(index) || o.readErr == OtherError
  }

  function Fill(j: Job, w: Window, o: Obs): ChunkTurn {
    if ReadFails(j, w.next, o) then Return(Failed(ReadFailed))
    else
      var pkt := j.packet(w.next);
      Continue(w.(next := w.next + 1, flight := w.flight + [Flight(pkt, o.now, false)]), [pkt])
  }

  // The chunk at the front of the flight has been acknowledged.
  function Absorb(w: Window, now: int): (r: Window)
    requires w.flight != []
    ensures r.accepted == w.accepted + 1 && r.flight == w.flight[1..]
    ensures r.next == w.next && r.lastActivity == w.lastActivity
    ensures r.window == w.window || r.window == MAX_WINDOW
  {
    var f := w.flight[0];
    var rest := w.(accepted := w.accepted + 1, flight := w.flight[1..]);
    if f.retransmitted then rest
    else
      rest.(srtt := SmoothRTT(w.srtt, now - f.sentAt),
            streak := w.streak + 1,
            window := if w.streak + 1 >= CLEAN_STREAK_TO_OPEN then MAX_WINDOW else w.window)
  }

  function AbsorbMany(w: Window, n: nat, now: int): (r: Window)
    requires n <= |w.flight|
    ensures r.accepted == w.accepted + n && r.flight == w.flight[n..]
    ensures r.next == w.next && r.lastActivity == w.lastActivity
    ensures r.window == w.window || r.window == MAX_WINDOW
    decreases n
  {
    if n == 0 then w else AbsorbMany(Absorb(w, now), n - 1, now)
  }

  function ChunkAckError(result: byte): Outcome {
    if result == CHUNK_OK then Nil
    else if result == CHUNK_USB_WRITE_ERROR then Failed(USBWrite)
    else if result == CHUNK_CANCELED then Failed(CanceledOnMasso)
    else Failed(TransferFailed)
  }

  function FoldAck(j: Job, w: Window, result: byte, accepted: nat, now: int): ChunkTurn
    requires |w.flight| == w.next - w.accepted
  {
    var w1 := w.(lastActivity := now);
    if ChunkAckError(result) != Nil then Return(ChunkAckError(result))
    else if accepted > w.next || accepted <= w.accepted then Continue(w1, [])
    else if accepted == j.total then Return(Nil)
    else Continue(AbsorbMany(w1, accepted - w.accepted, now), [])
  }

  function Resend(w: Window, now: int): Window {
    w.(flight := seq(|w.flight|, i requires 0 <= i < |w.flight| => w.flight[i].(sentAt := now, retransmitted := true)),
       window := 1, streak := 0)
  }

  function Packets(flight: seq<Flight>): (r: seq<Request>)
    ensures |r| == |flight| && forall i :: 0 <= i < |r| ==> r[i] == flight[i].pkt
  {
    seq(|flight|, i requires 0 <= i < |flight| => flight[i].pkt)
  }

  function ResendAt(w: Window): int
    requires w.flight != []
  {
    w.flight[0].sentAt + RetransmitTimeout(w.srtt)
  }

  // No ACK is waiting: stall, resend, or wait.
  function Judge(j: Job, w: Window, now: int): ChunkTurn
    requires w.flight != []
  {
    if now >= w.lastActivity + j.stallTimeout then Return(Failed(NoResponse))
    else if now > ResendAt(w) then Continue(Resend(w, now), Packets(w.flight))
    else Continue(w, [])
  }

  // How long the turn waits when Judge neither returns nor resends.
  function Wait(j: Job, w: Window, now: int): int
    requires w.flight != []
  {
    Min(ResendAt(w) + 1, w.lastActivity + j.stallTimeout) - now
  }

  function TurnChunks(j: Job, w: Window, o: Obs): ChunkTurn
    requires WellFormed(j, w) && w.accepted < j.total
  {
    if CanFill(j, w) then Fill(j, w, o)
    else match o.ack
      case GotAck(result, accepted) => FoldAck(j, w, result, accepted, o.now)
      case NoAck => FlightNotEmpty(j, w); Judge(j, w, o.now)
  }

  lemma FlightNotEmpty(j: Job, w: Window)
    requires WellFormed(j, w) && w.accepted < j.total && !CanFill(j, w)
    ensures w.flight != []
  {
  }

  // Every packet of sent carries a chunk below limit.
  ghost predicate ChunksBelow(j: Job, sent: seq<Request>, limit: nat) {
    forall q :: q in sent ==> exists i: nat :: i < limit && q == j.packet(i)
  }

  // What a turn that continues has done to a well-formed window.
  ghost predicate Advanced(j: Job, w: Window, t: ChunkTurn) {
    t.Continue? ==>
      && WellFormed(j, t.w) && t.w.accepted < j.total
      && w.accepted <= t.w.accepted && w.next <= t.w.next
      && ChunksBelow(j, t.sent, t.w.next)
  }

  // The window invariant, kept by every turn.
  lemma TurnKeepsWindow(j: Job, w: Window, o: Obs)
    requires WellFormed(j, w) && w.accepted < j.total
    ensures Advanced(j, w, TurnChunks(j, w, o))
  {
    if CanFill(j, w) {
      FillAdvances(j, w, o);
    } else {
      match o.ack
      case GotAck(result, accepted) => AckAdvances(j, w, result, accepted, o.now);
      case NoAck =>
        FlightNotEmpty(j, w);
        JudgeAdvances(j, w, o.now);
    }
  }

  lemma FillAdvances(j: Job, w: Window, o: Obs)
    requires WellFormed(j, w) && w.accepted < j.total && CanFill(j, w)
    ensures Advanced(j, w, Fill(j, w, o))
  {
    var t := Fill(j, w, o);
    if t.Continue? {
      assert t.sent == [j.packet(w.next)];
    }
  }

  lemma RestCarries(j: Job, flight: seq<Flight>, base: nat, rest: seq<Flight>, n: nat)
    requires CarriesFrom(j, flight, base) && n <= |flight| && rest == flight[n..]
    ensures CarriesFrom(j, rest, base + n)
  {
    forall i | 0 <= i < |rest| ensures rest[i].pkt == j.packet(base + n + i) {
      var k := n + i;
      assert rest[i] == flight[k] && flight[k].pkt == j.packet(base + k);
    }
  }

  lemma AbsorbedWellFormed(j: Job, w: Window, r: Window, n: nat)
    requires WellFormed(j, w) && n <= |w.flight|
    requires r.accepted == w.accepted + n && r.next == w.next && r.flight == w.flight[n..]
    requires r.window == w.window || r.window == MAX_WINDOW
    ensures WellFormed(j, r)
  {
    RestCarries(j, w.flight, w.accepted, r.flight, n);
  }

  // A turn that sends nothing new and leaves a well-formed window.
  lemma QuietAdvances(j: Job, w: Window, r: Window)
    requires WellFormed(j, r) && r.accepted < j.total && w.accepted <= r.accepted && w.next == r.next
    ensures Advanced(j, w, Continue(r, []))
  {
  }

  lemma AckAdvances(j: Job, w: Window, result: byte, accepted: nat, now: int)
    requires WellFormed(j, w) && w.accepted < j.total
    ensures Advanced(j, w, FoldAck(j, w, result, accepted, now))
  {
    var w1 := w.(lastActivity := now);
    QuietAdvances(j, w, w1);
    if w.accepted < accepted <= w.next && accepted != j.total {
      var r := AbsorbMany(w1, accepted - w.accepted, now);
      AbsorbedWellFormed(j, w, r, accepted - w.accepted);
      QuietAdvances(j, w, r);
    }
  }

  lemma JudgeAdvances(j: Job, w: Window, now: int)
    requires WellFormed(j, w) && w.accepted < j.total && w.flight != []
    ensures Advanced(j, w, Judge(j, w, now))
  {
    forall q | q in Packets(w.flight) ensures exists i: nat :: i < w.next && q == j.packet(i) {
      var k :| 0 <= k < |w.flight| && q == w.flight[k].pkt;
      assert q == j.packet(w.accepted + k);
    }
  }
}
