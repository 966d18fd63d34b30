// The upload queue (internal/engine/scheduler.go, with the locked sections of
// internal/engine/archive.go) as a state machine on values: each section that
// runs under the scheduler's lock is one atomic operation. Scheduler.dfy runs
// the same operations on shared mutable items.
module UploadQueue {
  import opened Bytes

  datatype TransferState = Pending | Waiting | Sending | Sent | Failed | Rejected | SentUnfiled | Dropped
  {
    predicate Retryable() { Failed? || Rejected? || SentUnfiled? }

    predicate Terminal() { Sent? || Failed? || Rejected? || SentUnfiled? || Dropped? }
  }

  // One item. changed is a history variable: a report has changed the item's
  // content since the goroutine last chose it.
  datatype Row = Row(
    name: string, root: string, dir: string, base: string, path: string,
    size: int, modTime: int, manual: bool,
    state: TransferState, message: string,
    failCount: nat, nextAttempt: Option<int>,
    sending: bool, resendAfter: bool, orphaned: bool, changed: bool)

  datatype Event = Event(name: string, path: string, size: int, state: TransferState, message: string, manual: bool)

  // The item the goroutine holds: still the one in the map under its name, or
  // no longer in the map at all.
  datatype Current = Nothing | InMap(name: string) | Detached(row: Row)

  datatype Source = Source(root: string, dir: string, base: string, path: string, size: int, modTime: int)

  datatype UploadResult = Succeeded | UserCanceled(text: string) | OtherFailure(text: string)

  datatype OpenError = BadTarget(reason: string) | NotExist | Unavailable

  // Where the goroutine stands between two locked sections.
  datatype Phase =
    | Idle
    | Chosen                                            // next has returned an item
    | Opening(src: Source)                              // openForSend has snapshotted its location
    | Opened(src: Source)                               // the file is open and its size known
    | Uploading(src: Source)
    | Uploaded(src: Source, result: UploadResult)
    | Settling(src: Source, result: UploadResult, resend: bool) // after finishSend's first section
    | Archiving(src: Source)                            // archiveSent, before a check
    | Moving(src: Source)                               // archiveSent, after a check that did not stop it
    | Settled(state: TransferState, message: string)    // about to record a successful outcome
    | Recorded(ok: bool, resendDue: bool)               // before finishSend's last section

  datatype Queue = Queue(items: map<string, Row>, cur: Current, phase: Phase, log: seq<Event>)

  datatype Config = Config(
    accepts: (string, string) -> bool, // uploadTarget takes this folder and base name
    backoff: seq<nat>)

  const WAITING_TO_SEND := "Waiting to send"
  const SENDING := "Sending"
  const FILE_SENT := "File sent"
  const FOLDER_CHANGED := "Watch folder changed"
  const FILE_VANISHED := "No longer in the watch folder"
  const FILE_GONE := "File no longer exists"

  const SEPARATOR: char := '\\'

  // filepath.Join of a clean relative folder and a base name.
  function Join(dir: string, base: string): string {
    if dir == "" then base else dir + [SEPARATOR] + base
  }

  function EventOf(r: Row): Event {
    Event(r.name, r.path, r.size, r.state, r.message, r.manual)
  }

  function NewRow(name: string): Row {
    Row(name, "", "", "", "", 0, 0, false, Pending, "", 0, None, false, false, false, false)
  }

  function Rearm(r: Row): Row {
    r.(state := Pending, message := WAITING_TO_SEND, failCount := 0, nextAttempt := None)
  }

  function Emit(q: Queue, r: Row): Queue {
    q.(log := q.log + [EventOf(r)])
  }

  // --- Reports and requests --------------------------------------------------

  // A new item under this name; the one it replaces, if any, leaves the map.
  function Insert(q: Queue, name: string, r: Row): Queue {
    q.(items := q.items[name := r],
       cur := if q.cur == InMap(name) && name in q.items then Detached(q.items[name]) else q.cur)
  }

  // itemLocked: an orphan is replaced, which detaches it from the map.
  function ItemLocked(q: Queue, root: string, dir: string, base: string): Queue {
    var name := Join(dir, base);
    if name in q.items && !q.items[name].orphaned then
      q.(items := q.items[name := q.items[name].(root := root, dir := dir, base := base)])
    else
      Insert(q, name, NewRow(name).(root := root, dir := dir, base := base))
  }

  predicate SameContent(r: Row, path: string, size: int, modTime: int) {
    r.path == path && r.size == size && r.modTime == modTime
  }

  function WithContent(r: Row, path: string, size: int, modTime: int): Row {
    r.(path := path, size := size, modTime := modTime,
       changed := r.changed || !SameContent(r, path, size, modTime))
  }

  function Ready(q: Queue, root: string, dir: string, base: string, path: string, size: int, modTime: int): Queue {
    var q1 := ItemLocked(q, root, dir, base);
    var name := Join(dir, base);
    var it := q1.items[name];
    if it.manual && SameContent(it, path, size, modTime) then q1
    else
      var it1 := WithContent(it, path, size, modTime);
      var it2 := if it1.sending then it1.(resendAfter := true) else Rearm(it1).(manual := false);
      Emit(q1.(items := q1.items[name := it2]), it2)
  }

  function Reject(q: Queue, root: string, dir: string, base: string, path: string, reason: string): Queue {
    var q1 := ItemLocked(q, root, dir, base);
    var name := Join(dir, base);
    var it := q1.items[name].(path := path, state := Rejected, message := reason, sending := false);
    Emit(q1.(items := q1.items[name := it]), it)
  }

  function SendFile(q: Queue, root: string, dir: string, base: string, path: string, size: int, modTime: int): Queue {
    var q1 := ItemLocked(q, root, dir, base);
    var name := Join(dir, base);
    var it := q1.items[name];
    var differs := !SameContent(it, path, size, modTime);
    var it1 := WithContent(it, path, size, modTime).(manual := true);
    var it2 := if it1.sending then it1.(resendAfter := it1.resendAfter || differs) else Rearm(it1);
    Emit(q1.(items := q1.items[name := it2]), it2)
  }

  function Retry(q: Queue, name: string): Queue {
    if name !in q.items || !q.items[name].state.Retryable() then q
    else
      var it := Rearm(q.items[name]);
      Emit(q.(items := q.items[name := it]), it)
  }

  // An item SetWatchDir leaves alone.
  predicate Kept(r: Row, keep: string) {
    r.manual || (keep != "" && r.root == keep)
  }

  // An item SetWatchDir drops at once.
  predicate Leaves(r: Row, keep: string) {
    !Kept(r, keep) && !r.sending
  }

  function AfterClear(r: Row, keep: string): Row {
    if Kept(r, keep) then r
    else if r.sending then r.(orphaned := true)
    else DroppedRow(r, FOLDER_CHANGED)
  }

  function Cleared(items: map<string, Row>, keep: string): map<string, Row> {
    map k | k in items && !Leaves(items[k], keep) :: AfterClear(items[k], keep)
  }

  // dropLocked reports a drop unless the last reported state was final.
  predicate ReportsDrop(r: Row) {
    !r.state.Terminal() || r.state.Retryable()
  }

  function DroppedRow(r: Row, message: string): Row {
    if ReportsDrop(r) then r.(state := Dropped, message := message) else r
  }

  // The item under k leaves the map; the goroutine may still hold it, as r.
  function Removed(q: Queue, k: string, r: Row): Queue {
    q.(items := q.items - {k}, cur := if q.cur == InMap(k) && k in q.items then Detached(r) else q.cur)
  }

  // clearNonManual at one item.
  function ClearOne(q: Queue, k: string, keep: string): Queue
    requires k in q.items
  {
    if Leaves(q.items[k], keep) then Removed(q, k, AfterClear(q.items[k], keep))
    else q.(items := q.items[k := AfterClear(q.items[k], keep)])
  }

  function DropEvents(r: Row, keep: string): seq<Event> {
    if Leaves(r, keep) && ReportsDrop(r) then [EventOf(AfterClear(r, keep))] else []
  }

  // clearNonManual, with the drop events it emits in some order.
  function ClearNonManual(q: Queue, keep: string, drops: seq<Event>): Queue {
    var items := Cleared(q.items, keep);
    var cur := if q.cur.InMap? && q.cur.name in q.items && q.cur.name !in items
               then Detached(AfterClear(q.items[q.cur.name], keep)) else q.cur;
    q.(items := items, cur := cur, log := q.log + drops)
  }

  // The events about this name, in order.
  function EventsNamed(events: seq<Event>, k: string): seq<Event> {
    if events == [] then []
    else
      var e := events[|events| - 1];
      EventsNamed(events[..|events| - 1], k) + if e.name == k then [e] else []
  }

  // Each item dropped has its drop event among these, once, and there are no others.
  ghost predicate DropsOf(q: Queue, keep: string, drops: seq<Event>) {
    forall k :: EventsNamed(drops, k) == if k in q.items then DropEvents(q.items[k], keep) else []
  }

  // --- Choosing ----------------------------------------------------------------

  predicate Candidate(r: Row, now: int) {
    match r.state
    case Failed => r.nextAttempt.Some? && r.nextAttempt.value <= now
    case Pending => r.nextAttempt.None? || r.nextAttempt.value <= now
    case Waiting => r.nextAttempt.None? || r.nextAttempt.value <= now
    case _ => false
  }

  // strings.Compare(a, b) < 0
  predicate Before(a: string, b: string) {
    b != "" && (a == "" || a[0] < b[0] || (a[0] == b[0] && Before(a[1..], b[1..])))
  }

  // compareItems(a, b) < 0
  predicate Precedes(a: Row, b: Row) {
    if a.manual != b.manual then a.manual
    else if a.modTime != b.modTime then a.modTime < b.modTime
    else Before(a.name, b.name)
  }

  predicate First(q: Queue, now: int, name: string) {
    && name in q.items && Candidate(q.items[name], now)
    && forall k :: k in q.items && k != name && Candidate(q.items[k], now) ==> Precedes(q.items[name], q.items[k])
  }

  function Choose(q: Queue, name: string): Queue
    requires name in q.items
  {
    q.(items := q.items[name := q.items[name].(sending := true, changed := false)],
       cur := InMap(name), phase := Chosen)
  }

  predicate Held(r: Row, now: int, reason: string) {
    Candidate(r, now) && (r.state != Waiting || r.message != reason)
  }

  function HoldRow(r: Row, now: int, reason: string): Row {
    if Held(r, now, reason) then r.(state := Waiting, message := reason) else r
  }

  function Hold(q: Queue, now: int, reason: string, holds: seq<Event>): Queue {
    q.(items := map k | k in q.items :: HoldRow(q.items[k], now, reason), log := q.log + holds)
  }

  function HoldEvents(r: Row, now: int, reason: string): seq<Event> {
    if Held(r, now, reason) then [EventOf(HoldRow(r, now, reason))] else []
  }

  ghost predicate HoldsOf(q: Queue, now: int, reason: string, holds: seq<Event>) {
    forall k :: EventsNamed(holds, k) == if k in q.items then HoldEvents(q.items[k], now, reason) else []
  }

  // --- Sending ---------------------------------------------------------------

  predicate HasCurrent(q: Queue) {
    match q.cur
    case Nothing => false
    case InMap(name) => name in q.items
    case Detached(_) => true
  }

  function CurrentRow(q: Queue): Row
    requires HasCurrent(q)
  {
    if q.cur.InMap? then q.items[q.cur.name] else q.cur.row
  }

  function SetCurrent(q: Queue, r: Row): Queue
    requires HasCurrent(q)
  {
    if q.cur.InMap? then q.(items := q.items[q.cur.name := r]) else q.(cur := Detached(r))
  }

  // supersededLocked, for the item the goroutine holds.
  predicate Superseded(q: Queue) {
    q.cur.Detached? && q.cur.row.orphaned
  }

  function EmitUnless(q: Queue, skip: bool, r: Row): Queue {
    if skip then q else Emit(q, r)
  }

  // dropLocked on the item the goroutine holds.
  function DropCurrent(q: Queue, message: string): Queue
    requires HasCurrent(q)
  {
    var it := CurrentRow(q);
    var removed := q.(items := q.items - {it.name}, cur := Detached(DroppedRow(it, message)));
    EmitUnless(removed, !ReportsDrop(it), DroppedRow(it, message))
  }

  function DropOrphan(q: Queue): Queue
    requires HasCurrent(q)
  {
    if Superseded(q) then q else DropCurrent(q, FOLDER_CHANGED)
  }

  function Release(q: Queue): Queue {
    q.(cur := Nothing, phase := Idle)
  }

  function Snapshot(q: Queue): Queue
    requires HasCurrent(q)
  {
    var it := CurrentRow(q);
    q.(phase := Opening(Source(it.root, it.dir, it.base, it.path, 0, 0)))
  }

  // The message of a vanished file depends on where it came from.
  function VanishedMessage(r: Row): string {
    if r.root == "" then FILE_GONE else FILE_VANISHED
  }

  // The goroutine lets go of its item, which has become r and is reported.
  function SettleAs(q: Queue, r: Row): Queue
    requires HasCurrent(q)
  {
    Release(Emit(SetCurrent(q, r), r))
  }

  function PreflightFailed(c: Config, q: Queue, err: OpenError, now: int): Queue
    requires HasCurrent(q) && c.backoff != []
  {
    var it := CurrentRow(q);
    var refreshed := it.resendAfter;
    var it1 := it.(sending := false, resendAfter := false);
    if it1.orphaned then Release(DropOrphan(SetCurrent(q, it1)))
    else if err.BadTarget? then
      SettleAs(q, it1.(state := Rejected, message := err.reason, nextAttempt := None))
    else if err.NotExist? && !refreshed then
      Release(DropCurrent(SetCurrent(q, it1), VanishedMessage(it1)))
    else
      SettleAs(q, it1.(state := Pending, message := WAITING_TO_SEND, nextAttempt := Some(now + c.backoff[0])))
  }

  // sendOne's section after the file is open.
  function MarkSending(q: Queue): Queue
    requires HasCurrent(q) && q.phase.Opened?
  {
    var it := CurrentRow(q).(size := q.phase.src.size, state := Sending, message := SENDING);
    Emit(SetCurrent(q, it), it).(phase := Uploading(q.phase.src))
  }

  function FinishFirst(q: Queue): Queue
    requires HasCurrent(q) && q.phase.Uploaded?
  {
    var it := CurrentRow(q);
    SetCurrent(q, it.(resendAfter := false)).(phase := Settling(q.phase.src, q.phase.result, it.resendAfter))
  }

  function Backoff(c: Config, failCount: nat): nat
    requires c.backoff != [] && failCount > 0
  {
    c.backoff[if failCount - 1 < |c.backoff| - 1 then failCount - 1 else |c.backoff| - 1]
  }

  // recordFailure: no automatic retry after a cancel on the machine.
  function FailedRow(c: Config, it: Row, result: UploadResult, now: int): Row
    requires c.backoff != [] && !result.Succeeded?
  {
    it.(state := Failed, message := result.text,
        failCount := if result.UserCanceled? then it.failCount else it.failCount + 1,
        nextAttempt := if result.UserCanceled? then None else Some(now + Backoff(c, it.failCount + 1)))
  }

  function RecordFailure(c: Config, q: Queue, now: int): Queue
    requires HasCurrent(q) && q.phase.Settling? && !q.phase.result.Succeeded? && c.backoff != []
  {
    var it := FailedRow(c, CurrentRow(q), q.phase.result, now);
    EmitUnless(SetCurrent(q, it), Superseded(q), it).(phase := Recorded(false, q.phase.resend))
  }

  function SetTerminal(q: Queue, state: TransferState, message: string, resend: bool): Queue
    requires HasCurrent(q)
  {
    var it := CurrentRow(q).(state := state, message := message);
    EmitUnless(SetCurrent(q, it), Superseded(q), it).(phase := Recorded(true, resend))
  }

  // archiveSent's check before each attempt.
  function ArchiveCheck(q: Queue): Queue
    requires HasCurrent(q) && q.phase.Archiving?
  {
    var it := CurrentRow(q);
    q.(phase := if it.manual || it.resendAfter then Settled(Sent, FILE_SENT) else Moving(q.phase.src))
  }

  function FinishLast(q: Queue): Queue
    requires HasCurrent(q) && q.phase.Recorded?
  {
    var it := CurrentRow(q);
    var resend := q.phase.resendDue || it.resendAfter;
    var it1 := it.(resendAfter := false, sending := false);
    if it1.orphaned then Release(DropOrphan(SetCurrent(q, it1)))
    else if resend && q.phase.ok then SettleAs(q, Rearm(it1))
    else Release(SetCurrent(q, it1))
  }
}
