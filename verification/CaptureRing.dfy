// The capture ring: one thread keeps twenty requests to the USB device in
// flight, each for a slot of a ring; the other reads what has been completed.
// Every step of either thread, and of the device, is one event.

module CaptureRing {
  import opened Bytes
  import opened SectionModel

  const BULK := 16384
  const SLOTS := 1020
  const URBS := 20
  const INVALID := 16385

  // ------------------------------------------------------------ the state

  /** A request block: n is the number of its submission, slot the ring slot
      that its pointers lead to. */
  datatype Urb =
    | Idle
    | Flight(n: nat, slot: nat)
    | Done(n: nat, slot: nat, status: int, length: nat)

  /** Where the producing thread is. */
  datatype Producer =
    | Prepare(k: nat)
    | Publish(k: nat, slot: nat)
    | Submit(k: nat, n: nat, slot: nat)
    | Wait
    | Store(k: nat, n: nat, slot: nat, status: int, length: nat)
    | Decide(k: nat)
    | Ended

  /** Where the reading thread is. */
  datatype Reader = Rest | Scan(i: nat) | Finish(i: nat, remain: int)

  type Sizes = z: seq<int> | |z| == 1020 witness seq(1020, _ => 0)
  type Memory = b: seq<byte> | |b| == 1020 * 16384 witness seq(1020 * 16384, _ => 0)
  type Blocks = u: seq<Urb> | |u| == 20 witness seq(20, _ => Idle)

  /** The last three fields are history: what the device delivered for every
      submission so far, how many slots were consumed, and all bytes read. */
  datatype State = State(
    push: nat,
    pop: nat,
    size: Sizes,
    buf: Memory,
    urbs: Blocks,
    producer: Producer,
    starting: bool,
    cancelled: bool,
    issued: int,
    reader: Reader,
    results: seq<Option<seq<byte>>>,
    popped: nat,
    delivered: seq<byte>)

  /** All indices are in range. */
  predicate Shaped(s: State) {
    && s.push < SLOTS && s.pop < SLOTS && ProducerInRange(s.producer, |s.results|) && ReaderInRange(s.reader, s.pop)
    && forall k | 0 <= k < URBS :: UrbInRange(s.urbs[k], |s.results|)
  }

  predicate UrbInRange(u: Urb, count: nat) {
    match u
    case Idle => true
    case Flight(n, slot) => slot < SLOTS && n < count
    case Done(n, slot, _, length) => slot < SLOTS && n < count && length <= BULK
  }

  predicate ProducerInRange(p: Producer, count: nat) {
    match p
    case Prepare(k) => k < URBS
    case Publish(k, slot) => k < URBS && slot < SLOTS
    case Submit(k, n, slot) => k < URBS && slot < SLOTS && n < count
    case Store(k, n, slot, _, length) => k < URBS && slot < SLOTS && n < count && length <= BULK
    case Decide(k) => k < URBS
    case _ => true
  }

  predicate ReaderInRange(r: Reader, pop: nat) {
    match r
    case Rest => true
    case Scan(i) => pop <= i <= SLOTS
    case Finish(i, remain) => pop <= i <= SLOTS && (remain >= 0 ==> i < SLOTS && remain < BULK)
  }

  // ------------------------------------------------------------ the steps

  /** What can happen next. A completion brings a status, a length and the
      bytes that are then in the slot. */
  datatype Event =
    | MarkSlot
    | PushIndex
    | SubmitUrb
    | Complete(k: nat, status: int, length: nat, bytes: seq<byte>)
    | Reap(k: nat)
    | StoreSize
    | Again
    | Cancel
    | Exit
    | Look
    | ScanSlot
    | Return

  /** The program does not test whether the ring is full: that the producer
      does not lap the reader is a condition of MarkSlot here. */
  predicate Enabled(s: State, e: Event) {
    match e
    case MarkSlot => s.producer.Prepare? && |s.results| - s.popped < SLOTS - 1
    case PushIndex => s.producer.Publish?
    case SubmitUrb => s.producer.Submit?
    case Complete(k, _, length, bytes) => k < |s.urbs| && s.urbs[k].Flight? && length <= BULK == |bytes|
    case Reap(k) => k < |s.urbs| && s.urbs[k].Done? && s.producer.Wait?
    case StoreSize => s.producer.Store?
    case Again => s.producer.Decide?
    case Cancel => true
    case Exit => s.producer.Wait? && s.cancelled && s.issued <= 0
    case Look => s.reader.Rest?
    case ScanSlot => s.reader.Scan?
    case Return => s.reader.Finish?
  }

  /** What readBuffer returns: whole slots, and the bytes of a short one. */
  function ReadSize(s: State): int
    requires s.reader.Finish?
  {
    (s.reader.i - s.pop) * BULK + if s.reader.remain < 0 then 0 else s.reader.remain
  }

  /** A slot of the ring overwritten. */
  function Filled(buf: Memory, slot: nat, bytes: seq<byte>): Memory
    requires slot < SLOTS && |bytes| == BULK
  {
    buf[..BULK * slot] + bytes + buf[BULK * (slot + 1)..]
  }

  /** The producing thread marks a slot unfinished, moves the index past it,
      and submits a request for it. */
  function Marked(s: State): (s': State)
    requires Shaped(s) && s.producer.Prepare?
    ensures Shaped(s')
  {
    s.(size := s.size[s.push := INVALID], producer := Publish(s.producer.k, s.push))
  }

  function Pushed(s: State): (s': State)
    requires Shaped(s) && s.producer.Publish?
    ensures Shaped(s')
  {
    s.(push := if s.push < SLOTS - 1 then s.push + 1 else 0, results := s.results + [None],
       producer := Submit(s.producer.k, |s.results|, s.producer.slot))
  }

  function Submitted(s: State): (s': State)
    requires Shaped(s) && s.producer.Submit?
    ensures Shaped(s')
  {
    var k := s.producer.k;
    var s1 := s.(urbs := s.urbs[k := Flight(s.producer.n, s.producer.slot)]);
    if !s.starting then s1.(producer := Wait)
    else if k + 1 < URBS then s1.(producer := Prepare(k + 1))
    else s1.(producer := Wait, starting := false, issued := URBS)
  }

  /** The device is done with a request: what was transferred is in the slot. */
  function Completed(s: State, k: nat, status: int, length: nat, bytes: seq<byte>): (s': State)
    requires Shaped(s) && k < URBS && s.urbs[k].Flight? && length <= BULK == |bytes|
    ensures Shaped(s')
  {
    var u := s.urbs[k];
    s.(buf := Filled(s.buf, u.slot, bytes), urbs := s.urbs[k := Done(u.n, u.slot, status, length)],
       results := s.results[u.n := Some(if status == 0 then bytes[..length] else [])])
  }

  /** The producing thread takes back a request, stores its size, and uses the
      block again unless it was told to stop. */
  function Reaped(s: State, k: nat): (s': State)
    requires Shaped(s) && k < URBS && s.urbs[k].Done?
    ensures Shaped(s')
  {
    var u := s.urbs[k];
    s.(urbs := s.urbs[k := Idle], producer := Store(k, u.n, u.slot, u.status, u.length))
  }

  function Stored(s: State): (s': State)
    requires Shaped(s) && s.producer.Store?
    ensures Shaped(s')
  {
    var p := s.producer;
    s.(size := s.size[p.slot := if p.status == 0 then p.length else 0], producer := Decide(p.k))
  }

  function Decided(s: State): (s': State)
    requires Shaped(s) && s.producer.Decide?
    ensures Shaped(s')
  {
    if s.cancelled then s.(issued := s.issued - 1, producer := Wait)
    else s.(producer := Prepare(s.producer.k))
  }

  /** The reading thread: nothing to read, or a scan over finished slots up to
      the first short one, and then the bytes and the new index. */
  function Looked(s: State): (s': State)
    requires Shaped(s) && s.reader.Rest?
    ensures Shaped(s')
  {
    if s.push == s.pop then s else s.(reader := Scan(s.pop))
  }

  function Scanned(s: State): (s': State)
    requires Shaped(s) && s.reader.Scan?
    ensures Shaped(s')
  {
    var i := s.reader.i;
    if !(i < SLOTS && i != s.push) || s.size[i] == INVALID then s.(reader := Finish(i, -1))
    else if s.size[i] < BULK then s.(reader := Finish(i, s.size[i]))
    else s.(reader := Scan(i + 1))
  }

  function Returned(s: State): (s': State)
    requires Shaped(s) && s.reader.Finish?
    ensures Shaped(s')
  {
    var i := if s.reader.remain >= 0 then s.reader.i + 1 else s.reader.i;
    s.(pop := if i < SLOTS then i else 0, reader := Rest, popped := s.popped + (i - s.pop),
       delivered := s.delivered + s.buf[BULK * s.pop..BULK * s.pop + ReadSize(s)])
  }

  function Apply(s: State, e: Event): (s': State)
    requires Shaped(s) && Enabled(s, e)
    ensures Shaped(s')
  {
    match e
    case MarkSlot => Marked(s)
    case PushIndex => Pushed(s)
    case SubmitUrb => Submitted(s)
    case Complete(k, status, length, bytes) => Completed(s, k, status, length, bytes)
    case Reap(k) => Reaped(s, k)
    case StoreSize => Stored(s)
    case Again => Decided(s)
    case Cancel => s.(cancelled := true)
    case Exit => s.(producer := Ended)
    case Look => Looked(s)
    case ScanSlot => Scanned(s)
    case Return => Returned(s)
  }
}
