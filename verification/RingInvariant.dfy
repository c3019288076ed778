// What every interleaving of the two threads and the device keeps: the ring is
// a queue of finished transfers in the order of their submission.

module RingInvariant {
  import opened Bytes
  import opened SectionModel
  import opened CaptureRing

  // --------------------------------------------------------- the invariant

  /** The slot of a submission. */
  function SlotOf(n: nat): (q: nat)
    ensures q < SLOTS
  {
    n % SLOTS
  }

  lemma SlotsDiffer(n: nat, m: nat)
    requires n < m < n + SLOTS
    ensures SlotOf(n) != SlotOf(m)
  {
  }

  lemma SlotAhead(n: nat, j: nat)
    requires SlotOf(n) + j <= SLOTS
    ensures SlotOf(n + j) == if SlotOf(n) + j == SLOTS then 0 else SlotOf(n) + j
  {
  }

  /** Both indices point at the right slots, and the ring is never full. */
  predicate Window(push: nat, pop: nat, popped: nat, count: nat) {
    popped <= count < popped + SLOTS && push == SlotOf(count) && pop == SlotOf(popped)
  }

  /** A slot about to be submitted is marked, and there is room for it. */
  predicate Prepared(p: Producer, size: Sizes, popped: nat, count: nat) {
    p.Publish? ==> p.slot == SlotOf(count) && size[p.slot] == INVALID && count + 1 < popped + SLOTS
  }

  /** The submission and the slot that a request block stands for, in the
      device's hands or the producer's. */
  function Held(urbs: Blocks, p: Producer, k: nat): Option<(nat, nat)>
    requires k < URBS
  {
    match urbs[k]
    case Flight(n, slot) => Some((n, slot))
    case Done(n, slot, _, _) => Some((n, slot))
    case Idle =>
      match p
      case Submit(j, n, slot) => if j == k then Some((n, slot)) else None
      case Store(j, n, slot, _, _) => if j == k then Some((n, slot)) else None
      case _ => None
  }

  /** A held submission is not consumed, and its slot is marked unfinished. */
  predicate HeldRight(h: Option<(nat, nat)>, size: Sizes, popped: nat, count: nat) {
    h.Some? ==>
      var (n, slot) := h.value;
      popped <= n < count && slot == SlotOf(n) && size[SlotOf(n)] == INVALID
  }

  predicate Apart(h: Option<(nat, nat)>, h': Option<(nat, nat)>) {
    h.Some? && h'.Some? ==> h.value.0 != h'.value.0
  }

  ghost predicate Holders(urbs: Blocks, p: Producer, size: Sizes, popped: nat, count: nat) {
    && (forall k | 0 <= k < URBS :: HeldRight(Held(urbs, p, k), size, popped, count))
    && (forall j, k | 0 <= j < k < URBS :: Apart(Held(urbs, p, j), Held(urbs, p, k)))
  }

  /** The block that the producer is busy with is in nobody else's hands. */
  predicate BlockFree(urbs: Blocks, p: Producer) {
    InHand(p) ==> p.k < URBS && urbs[p.k].Idle?
  }

  predicate InHand(p: Producer) {
    !p.Wait? && !p.Ended?
  }

  /** The first length bytes of a slot. */
  function Head(buf: Memory, slot: nat, length: nat): seq<byte>
    requires slot < SLOTS && length <= BULK
  {
    buf[BULK * slot..BULK * slot + length]
  }

  /** The slot of a submission holds what the device delivered, as soon as it
      is not marked unfinished. */
  predicate SlotRight(size: Sizes, buf: Memory, result: Option<seq<byte>>, n: nat) {
    var z := size[SlotOf(n)];
    z != INVALID ==> 0 <= z <= BULK && result == Some(Head(buf, SlotOf(n), z))
  }

  ghost predicate Slots(popped: nat, size: Sizes, buf: Memory, results: seq<Option<seq<byte>>>) {
    forall n | popped <= n < |results| :: SlotRight(size, buf, results[n], n)
  }

  /** What the device delivered for a request that it is done with. */
  predicate Arrived(buf: Memory, results: seq<Option<seq<byte>>>, n: nat, slot: nat, status: int, length: nat) {
    && n < |results| && slot < SLOTS && length <= BULK
    && results[n] == Some(if status == 0 then Head(buf, slot, length) else [])
  }

  predicate DoneRight(u: Urb, buf: Memory, results: seq<Option<seq<byte>>>) {
    u.Done? ==> Arrived(buf, results, u.n, u.slot, u.status, u.length)
  }

  ghost predicate Arrivals(urbs: Blocks, p: Producer, buf: Memory, results: seq<Option<seq<byte>>>) {
    && (forall k | 0 <= k < URBS :: DoneRight(urbs[k], buf, results))
    && (p.Store? ==> Arrived(buf, results, p.n, p.slot, p.status, p.length))
  }

  /** The reader has seen whole slots so far, and no more than were submitted. */
  ghost predicate SeenWhole(i: nat, pop: nat, popped: nat, count: nat, size: Sizes) {
    pop <= i <= SLOTS && popped + (i - pop) <= count && forall j | pop <= j < i :: size[j] == BULK
  }

  ghost predicate Reading(r: Reader, pop: nat, popped: nat, count: nat, size: Sizes) {
    match r
    case Rest => true
    case Scan(i) => SeenWhole(i, pop, popped, count, size)
    case Finish(i, remain) =>
      && SeenWhole(i, pop, popped, count, size)
      && (remain >= 0 ==> i < SLOTS && popped + (i - pop) < count && size[i] == remain < BULK)
  }

  /** The bytes of finished submissions, in order. */
  function Stream(rs: seq<Option<seq<byte>>>): seq<byte> {
    if rs == [] then [] else Stream(rs[..|rs| - 1]) + if rs[|rs| - 1].Some? then rs[|rs| - 1].value else []
  }

  /** The bytes read so far are those of the submissions consumed so far, which
      were all finished. */
  ghost predicate Fifo(popped: nat, results: seq<Option<seq<byte>>>, delivered: seq<byte>) {
    && popped <= |results| && delivered == Stream(results[..popped])
    && forall n | 0 <= n < popped :: results[n].Some?
  }

  function Busy(urbs: seq<Urb>): nat {
    if urbs == [] then 0 else Busy(urbs[..|urbs| - 1]) + if urbs[|urbs| - 1].Idle? then 0 else 1
  }

  /** The requests issued are those in flight or about to be used again: twenty
      until the cancellation, and none once the thread has ended. */
  ghost predicate Issued(urbs: Blocks, p: Producer, starting: bool, cancelled: bool, issued: int) {
    && (starting ==>
          && (p.Prepare? || p.Publish? || p.Submit?)
          && Busy(urbs) == p.k && forall j | p.k <= j < URBS :: urbs[j].Idle?)
    && (!starting ==>
          && issued == Busy(urbs) + (if InHand(p) then 1 else 0)
          && (!cancelled ==> issued == URBS))
    && (p.Ended? ==> !starting && cancelled && issued == 0)
  }

  ghost predicate Inv(s: State) {
    && Shaped(s)
    && Window(s.push, s.pop, s.popped, |s.results|)
    && Prepared(s.producer, s.size, s.popped, |s.results|)
    && BlockFree(s.urbs, s.producer)
    && Holders(s.urbs, s.producer, s.size, s.popped, |s.results|)
    && Slots(s.popped, s.size, s.buf, s.results)
    && Arrivals(s.urbs, s.producer, s.buf, s.results)
    && Reading(s.reader, s.pop, s.popped, |s.results|, s.size)
    && Fifo(s.popped, s.results, s.delivered)
    && Issued(s.urbs, s.producer, s.starting, s.cancelled, s.issued)
  }

  /** Both arrays and the count of requests may hold anything at the start. */
  predicate Start(s: State) {
    && |s.size| == SLOTS && |s.buf| == SLOTS * BULK && s.urbs == seq(URBS, _ => Idle)
    && s.push == 0 && s.pop == 0 && s.producer == Prepare(0) && s.starting && !s.cancelled && s.reader == Rest
    && s.results == [] && s.popped == 0 && s.delivered == []
  }

  lemma {:induction false} IdleUrbs(urbs: seq<Urb>)
    requires forall k | 0 <= k < |urbs| :: urbs[k].Idle?
    ensures Busy(urbs) == 0
  {
    if urbs != [] {
      IdleUrbs(urbs[..|urbs| - 1]);
    }
  }

  lemma {:induction false} BusyUpdate(urbs: seq<Urb>, k: nat, u: Urb)
    requires k < |urbs|
    ensures Busy(urbs[k := u]) == Busy(urbs) - (if urbs[k].Idle? then 0 else 1) + (if u.Idle? then 0 else 1)
    decreases |urbs|
  {
    var last := |urbs| - 1;
    if k < last {
      BusyUpdate(urbs[..last], k, u);
      assert urbs[k := u][..last] == urbs[..last][k := u];
    } else {
      assert urbs[k := u][..last] == urbs[..last];
    }
  }

  lemma StartHolds(s: State)
    requires Start(s)
    ensures Inv(s)
  {
    IdleUrbs(s.urbs);
  }

  // ------------------------------------------------- the producer's steps

  lemma CancelKeeps(s: State)
    requires Inv(s)
    ensures Inv(s.(cancelled := true))
  {
    hide Window, Prepared, BlockFree, Holders, Slots, Arrivals, Reading, Fifo;
  }

  /** A place of the producer that holds no submission. */
  predicate EmptyHanded(p: Producer) {
    !p.Submit? && !p.Store?
  }

  lemma SameHolders(urbs: Blocks, p: Producer, p': Producer, size: Sizes, popped: nat, count: nat)
    requires Holders(urbs, p, size, popped, count) && EmptyHanded(p) && EmptyHanded(p')
    ensures Holders(urbs, p', size, popped, count)
  {
    hide HeldRight, Apart;
    forall k | 0 <= k < URBS ensures Held(urbs, p', k) == Held(urbs, p, k) {
    }
  }

  lemma DecidedKeeps(s: State)
    requires Inv(s) && s.producer.Decide?
    ensures Inv(Decided(s))
  {
    hide Window, Holders, Slots, Reading, Fifo;
    SameHolders(s.urbs, s.producer, Decided(s).producer, s.size, s.popped, |s.results|);
  }

  lemma ExitKeeps(s: State)
    requires Inv(s) && Enabled(s, Exit)
    ensures Inv(Apply(s, Exit))
  {
    hide Window, Holders, Slots, Reading, Fifo;
    SameHolders(s.urbs, s.producer, Ended, s.size, s.popped, |s.results|);
  }

  /** A slot outside the window may be marked. */
  lemma MarkedKeeps(s: State)
    requires Inv(s) && Enabled(s, MarkSlot)
    ensures Inv(Marked(s))
  {
    hide Stream, SlotOf;
    var s' := Marked(s);
    var count := |s.results|;
    forall n | s.popped <= n < count ensures SlotOf(n) != s.push {
      SlotsDiffer(n, count);
    }
    forall k | 0 <= k < URBS
      ensures Held(s.urbs, s'.producer, k) == Held(s.urbs, s.producer, k)
      ensures HeldRight(Held(s.urbs, s'.producer, k), s'.size, s.popped, count)
    {
      assert HeldRight(Held(s.urbs, s.producer, k), s.size, s.popped, count);
    }
    MarkedSlots(s);
    MarkedReading(s);
  }

  lemma MarkedSlots(s: State)
    requires Inv(s) && Enabled(s, MarkSlot)
    ensures Slots(s.popped, Marked(s).size, s.buf, s.results)
  {
    hide SlotOf, Holders, Arrivals, Reading, Fifo, Issued;
    forall n | s.popped <= n < |s.results| ensures SlotRight(Marked(s).size, s.buf, s.results[n], n) {
      SlotsDiffer(n, |s.results|);
      assert SlotRight(s.size, s.buf, s.results[n], n);
    }
  }

  lemma MarkedReading(s: State)
    requires Inv(s) && Enabled(s, MarkSlot)
    ensures Reading(s.reader, s.pop, s.popped, |s.results|, Marked(s).size)
  {
    hide SlotOf, Holders, Arrivals, Fifo, Issued, Slots;
    if !s.reader.Rest? {
      forall j | s.pop <= j < s.reader.i ensures Marked(s).size[j] == s.size[j] {
        NotPushed(s, j);
      }
      if s.reader.Finish? && s.reader.remain >= 0 {
        NotPushed(s, s.reader.i);
      }
    }
  }

  lemma NotPushed(s: State, j: nat)
    requires Window(s.push, s.pop, s.popped, |s.results|) && s.pop <= j < SLOTS && s.popped + (j - s.pop) < |s.results|
    ensures j != s.push
  {
    hide SlotOf;
    SlotAhead(s.popped, j - s.pop);
    SlotsDiffer(s.popped + (j - s.pop), |s.results|);
  }

  lemma PushedKeeps(s: State)
    requires Inv(s) && Enabled(s, PushIndex)
    ensures Inv(Pushed(s))
  {
    hide Stream, SlotOf, SlotRight, Issued;
    var s' := Pushed(s);
    SlotAhead(|s.results|, 1);
    PushedHolders(s);
    PushedSlots(s);
    PushedHistory(s);
    PushedIssued(s);
  }

  lemma PushedHolders(s: State)
    requires Inv(s) && Enabled(s, PushIndex)
    ensures Holders(s.urbs, Pushed(s).producer, s.size, s.popped, |s.results| + 1)
  {
    hide SlotOf, Slots, Arrivals, Reading, Fifo, Issued;
    var p, p' := s.producer, Pushed(s).producer;
    forall k | 0 <= k < URBS ensures HeldRight(Held(s.urbs, p', k), s.size, s.popped, |s.results| + 1) {
      assert HeldRight(Held(s.urbs, p, k), s.size, s.popped, |s.results|);
    }
    forall j, k | 0 <= j < k < URBS ensures Apart(Held(s.urbs, p', j), Held(s.urbs, p', k)) {
      assert Apart(Held(s.urbs, p, j), Held(s.urbs, p, k));
      assert HeldRight(Held(s.urbs, p, j), s.size, s.popped, |s.results|);
      assert HeldRight(Held(s.urbs, p, k), s.size, s.popped, |s.results|);
    }
  }

  lemma PushedSlots(s: State)
    requires Inv(s) && Enabled(s, PushIndex)
    ensures Slots(s.popped, s.size, s.buf, s.results + [None])
  {
    hide SlotOf, Holders, Arrivals, Reading, Fifo, Issued;
    forall n | s.popped <= n < |s.results| + 1 ensures SlotRight(s.size, s.buf, (s.results + [None])[n], n) {
      if n < |s.results| {
        assert SlotRight(s.size, s.buf, s.results[n], n);
      }
    }
  }

  lemma PushedHistory(s: State)
    requires Inv(s) && Enabled(s, PushIndex)
    ensures Arrivals(s.urbs, Pushed(s).producer, s.buf, s.results + [None])
    ensures Fifo(s.popped, s.results + [None], s.delivered)
  {
    hide SlotOf, Holders, Slots, Reading, Issued, Head;
    forall k | 0 <= k < URBS ensures DoneRight(s.urbs[k], s.buf, s.results + [None]) {
      assert DoneRight(s.urbs[k], s.buf, s.results);
    }
    assert (s.results + [None])[..s.popped] == s.results[..s.popped];
  }

  lemma PushedIssued(s: State)
    requires Inv(s) && Enabled(s, PushIndex)
    ensures Issued(s.urbs, Pushed(s).producer, s.starting, s.cancelled, s.issued)
  {
    hide Holders, Slots, Arrivals, Reading, Fifo;
  }

  lemma SubmittedKeeps(s: State)
    requires Inv(s) && Enabled(s, SubmitUrb)
    ensures Inv(Submitted(s))
  {
    hide Stream, SlotOf, SlotRight, Slots, Reading, Fifo, Window, Holders, Arrivals, Issued;
    var s' := Submitted(s);
    var u := Flight(s.producer.n, s.producer.slot);
    SubmittedHolders(s);
    SubmittedArrivals(s);
    SubmittedIssued(s);
  }

  lemma SubmittedHolders(s: State)
    requires Inv(s) && Enabled(s, SubmitUrb)
    ensures Holders(Submitted(s).urbs, Submitted(s).producer, s.size, s.popped, |s.results|)
  {
    hide SlotOf, Slots, Arrivals, Reading, Fifo, Issued, HeldRight, Apart;
    var s' := Submitted(s);
    forall k | 0 <= k < URBS ensures Held(s'.urbs, s'.producer, k) == Held(s.urbs, s.producer, k) {
    }
  }

  lemma SubmittedArrivals(s: State)
    requires Inv(s) && Enabled(s, SubmitUrb)
    ensures Arrivals(Submitted(s).urbs, Submitted(s).producer, s.buf, s.results)
  {
    hide SlotOf, Slots, Holders, Reading, Fifo, Issued, Arrived;
    var s' := Submitted(s);
    forall k | 0 <= k < URBS ensures DoneRight(s'.urbs[k], s.buf, s.results) {
      assert DoneRight(s.urbs[k], s.buf, s.results);
    }
  }

  lemma SubmittedIssued(s: State)
    requires Inv(s) && Enabled(s, SubmitUrb)
    ensures var s' := Submitted(s);
      Issued(s'.urbs, s'.producer, s'.starting, s'.cancelled, s'.issued) && BlockFree(s'.urbs, s'.producer)
  {
    hide SlotOf, Slots, Holders, Arrivals, Reading, Fifo;
    BusyUpdate(s.urbs, s.producer.k, Flight(s.producer.n, s.producer.slot));
  }

  lemma ReapedKeeps(s: State, k: nat)
    requires Inv(s) && Enabled(s, Reap(k))
    ensures Inv(Reaped(s, k))
  {
    hide Stream, SlotOf, SlotRight, Slots, Reading, Fifo, Window, HeldRight, Apart, Arrived;
    var s' := Reaped(s, k);
    forall j | 0 <= j < URBS ensures Held(s'.urbs, s'.producer, j) == Held(s.urbs, s.producer, j) {
    }
    forall j | 0 <= j < URBS ensures DoneRight(s'.urbs[j], s.buf, s.results) {
      assert DoneRight(s.urbs[j], s.buf, s.results);
    }
    assert DoneRight(s.urbs[k], s.buf, s.results);
    BusyUpdate(s.urbs, k, Idle);
  }

  // --------------------------------------------------- the device's step

  lemma HeadElsewhere(buf: Memory, slot: nat, bytes: seq<byte>, other: nat, length: nat)
    requires slot < SLOTS && |bytes| == BULK && other < SLOTS && length <= BULK
    ensures Head(Filled(buf, slot, bytes), other, length) == if other == slot then bytes[..length] else Head(buf, other, length)
  {
  }

  lemma CompletedKeeps(s: State, k: nat, status: int, length: nat, bytes: seq<byte>)
    requires Inv(s) && Enabled(s, Complete(k, status, length, bytes))
    ensures Inv(Completed(s, k, status, length, bytes))
  {
    hide Stream, SlotOf, SlotRight, Slots, Reading, Window, Holders, Arrivals, Filled;
    var s' := Completed(s, k, status, length, bytes);
    var u := s.urbs[k];
    CompletedHolders(s, k, status, length, bytes);
    CompletedSlots(s, k, status, length, bytes);
    CompletedArrivals(s, k, status, length, bytes);
    BusyUpdate(s.urbs, k, Done(u.n, u.slot, status, length));
    HeldByFlight(s, k);
    assert s'.results[..s.popped] == s.results[..s.popped];
  }

  lemma HeldByFlight(s: State, k: nat)
    requires Inv(s) && k < URBS && s.urbs[k].Flight?
    ensures s.popped <= s.urbs[k].n < |s.results| && s.urbs[k].slot == SlotOf(s.urbs[k].n)
    ensures s.size[s.urbs[k].slot] == INVALID
  {
    hide Slots, Arrivals, Reading, Fifo, Issued, SlotOf;
    assert HeldRight(Held(s.urbs, s.producer, k), s.size, s.popped, |s.results|);
  }

  lemma CompletedHolders(s: State, k: nat, status: int, length: nat, bytes: seq<byte>)
    requires Inv(s) && Enabled(s, Complete(k, status, length, bytes))
    ensures Holders(Completed(s, k, status, length, bytes).urbs, s.producer, s.size, s.popped, |s.results|)
  {
    hide SlotOf, Slots, Arrivals, Reading, Fifo, Issued, HeldRight, Apart, Filled;
    var s' := Completed(s, k, status, length, bytes);
    forall j | 0 <= j < URBS ensures Held(s'.urbs, s.producer, j) == Held(s.urbs, s.producer, j) {
    }
  }

  lemma CompletedSlots(s: State, k: nat, status: int, length: nat, bytes: seq<byte>)
    requires Inv(s) && Enabled(s, Complete(k, status, length, bytes))
    ensures var s' := Completed(s, k, status, length, bytes);
      Slots(s.popped, s.size, s'.buf, s'.results)
  {
    hide SlotOf, Holders, Arrivals, Reading, Fifo, Issued, Filled, Head;
    var s' := Completed(s, k, status, length, bytes);
    HeldByFlight(s, k);
    forall n | s.popped <= n < |s.results| ensures SlotRight(s.size, s'.buf, s'.results[n], n) {
      assert SlotRight(s.size, s.buf, s.results[n], n);
      var z := s.size[SlotOf(n)];
      if z != INVALID {
        HeadElsewhere(s.buf, s.urbs[k].slot, bytes, SlotOf(n), z);
      }
    }
  }

  lemma CompletedArrivals(s: State, k: nat, status: int, length: nat, bytes: seq<byte>)
    requires Inv(s) && Enabled(s, Complete(k, status, length, bytes))
    ensures var s' := Completed(s, k, status, length, bytes);
      Arrivals(s'.urbs, s.producer, s'.buf, s'.results)
  {
    hide SlotOf, Slots, Reading, Fifo, Issued, Filled, Head, Holders;
    var s' := Completed(s, k, status, length, bytes);
    var u := s.urbs[k];
    HeadElsewhere(s.buf, u.slot, bytes, u.slot, length);
    forall j | 0 <= j < URBS ensures DoneRight(s'.urbs[j], s'.buf, s'.results) {
      if j != k && s.urbs[j].Done? {
        assert DoneRight(s.urbs[j], s.buf, s.results);
        OtherSlot(s, k, j);
        HeadElsewhere(s.buf, u.slot, bytes, s.urbs[j].slot, s.urbs[j].length);
      }
    }
    if s.producer.Store? {
      OtherSlot(s, k, s.producer.k);
      HeadElsewhere(s.buf, u.slot, bytes, s.producer.slot, s.producer.length);
    }
  }

  /** No two submissions in hand share a slot. */
  lemma OtherSlot(s: State, k: nat, j: nat)
    requires Inv(s) && k < URBS && j < URBS && k != j
    requires Held(s.urbs, s.producer, k).Some? && Held(s.urbs, s.producer, j).Some?
    ensures Held(s.urbs, s.producer, k).value.0 != Held(s.urbs, s.producer, j).value.0
    ensures Held(s.urbs, s.producer, k).value.1 != Held(s.urbs, s.producer, j).value.1
  {
    hide SlotOf, Slots, Arrivals, Reading, Fifo, Issued;
    var a, b := Held(s.urbs, s.producer, k), Held(s.urbs, s.producer, j);
    assert HeldRight(a, s.size, s.popped, |s.results|) && HeldRight(b, s.size, s.popped, |s.results|);
    assert Apart(if k < j then a else b, if k < j then b else a);
    if a.value.0 < b.value.0 {
      SlotsDiffer(a.value.0, b.value.0);
    } else {
      SlotsDiffer(b.value.0, a.value.0);
    }
  }

  lemma StoredKeeps(s: State)
    requires Inv(s) && Enabled(s, StoreSize)
    ensures Inv(Stored(s))
  {
    hide Stream, SlotOf, SlotRight, Slots, Window, Holders, Arrived, Fifo;
    StoredHolders(s);
    StoredSlots(s);
    StoredIsMarked(s);
  }

  lemma StoredIsMarked(s: State)
    requires Inv(s) && s.producer.Store?
    ensures s.size[s.producer.slot] == INVALID && s.producer.slot == SlotOf(s.producer.n)
    ensures s.popped <= s.producer.n < |s.results|
  {
    hide SlotOf, Slots, Arrivals, Reading, Fifo, Issued;
    assert HeldRight(Held(s.urbs, s.producer, s.producer.k), s.size, s.popped, |s.results|);
  }

  lemma StoredHolders(s: State)
    requires Inv(s) && Enabled(s, StoreSize)
    ensures Holders(s.urbs, Stored(s).producer, Stored(s).size, s.popped, |s.results|)
  {
    hide SlotOf, Slots, Arrivals, Reading, Fifo, Issued;
    var s' := Stored(s);
    forall j | 0 <= j < URBS ensures HeldRight(Held(s.urbs, s'.producer, j), s'.size, s.popped, |s.results|) {
      assert HeldRight(Held(s.urbs, s.producer, j), s.size, s.popped, |s.results|);
      if j != s.producer.k && Held(s.urbs, s.producer, j).Some? {
        OtherSlot(s, s.producer.k, j);
      }
    }
    forall i, j | 0 <= i < j < URBS ensures Apart(Held(s.urbs, s'.producer, i), Held(s.urbs, s'.producer, j)) {
      assert Apart(Held(s.urbs, s.producer, i), Held(s.urbs, s.producer, j));
    }
  }

  lemma StoredSlots(s: State)
    requires Inv(s) && Enabled(s, StoreSize)
    ensures Slots(s.popped, Stored(s).size, s.buf, s.results)
  {
    hide SlotOf, Holders, Reading, Fifo, Issued, Window;
    var p, s' := s.producer, Stored(s);
    StoredIsMarked(s);
    WithinWindow(s);
    assert Head(s.buf, p.slot, 0) == [];
    forall n | s.popped <= n < |s.results| ensures SlotRight(s'.size, s.buf, s.results[n], n) {
      assert SlotRight(s.size, s.buf, s.results[n], n);
      if n < p.n {
        SlotsDiffer(n, p.n);
      } else if p.n < n {
        SlotsDiffer(p.n, n);
      }
    }
  }

  lemma WithinWindow(s: State)
    requires Window(s.push, s.pop, s.popped, |s.results|)
    ensures |s.results| < s.popped + SLOTS
  {
  }

  // --------------------------------------------------- the reader's steps

  lemma LookedKeeps(s: State)
    requires Inv(s) && s.reader.Rest?
    ensures Inv(Looked(s))
  {
    hide SlotOf, Holders, Slots, Arrivals, Fifo, Issued, Window;
    WithinWindow(s);
    PoppedAtMost(s);
  }

  lemma PoppedAtMost(s: State)
    requires Window(s.push, s.pop, s.popped, |s.results|)
    ensures s.popped <= |s.results|
  {
  }

  lemma ScannedKeeps(s: State)
    requires Inv(s) && s.reader.Scan?
    ensures Inv(Scanned(s))
  {
    hide SlotOf, Holders, Arrivals, Fifo, Issued, Window, Head;
    var i := s.reader.i;
    if i < SLOTS && i != s.push {
      MoreToScan(s, i);
      var n := s.popped + (i - s.pop);
      assert SlotRight(s.size, s.buf, s.results[n], n);
    }
  }

  /** Short of the other index there is another submission, in the next slot. */
  lemma MoreToScan(s: State, i: nat)
    requires Window(s.push, s.pop, s.popped, |s.results|) && s.pop <= i < SLOTS
    requires s.popped + (i - s.pop) <= |s.results| && i != s.push
    ensures s.popped + (i - s.pop) < |s.results| && SlotOf(s.popped + (i - s.pop)) == i
  {
    hide SlotOf;
    SlotAhead(s.popped, i - s.pop);
  }

  lemma StreamOneMore(rs: seq<Option<seq<byte>>>, n: nat)
    requires n < |rs| && rs[n].Some?
    ensures Stream(rs[..n + 1]) == Stream(rs[..n]) + rs[n].value
  {
    assert rs[..n + 1][..n] == rs[..n];
  }

  /** Whole slots one after the other are the bytes of as many submissions. */
  lemma {:induction false} WholeSlots(s: State, i: nat)
    requires Inv(s) && SeenWhole(i, s.pop, s.popped, |s.results|, s.size)
    ensures var m := s.popped + (i - s.pop);
      && s.delivered + s.buf[BULK * s.pop..BULK * i] == Stream(s.results[..m])
      && forall n | 0 <= n < m :: s.results[n].Some?
    decreases i
  {
    hide SlotOf, Stream, Holders, Arrivals, Issued, Window, Slots, Reading;
    if i > s.pop {
      var j: nat := i - 1;
      WholeSlots(s, j);
      SlotIsResult(s, j);
      StreamOneMore(s.results, s.popped + (j - s.pop));
      assert s.buf[BULK * s.pop..BULK * i] == s.buf[BULK * s.pop..BULK * j] + s.buf[BULK * j..BULK * i];
    }
  }

  lemma SlotIsResult(s: State, j: nat)
    requires Inv(s) && s.pop <= j < SLOTS && s.popped + (j - s.pop) < |s.results| && s.size[j] != INVALID
    ensures 0 <= s.size[j] <= BULK
    ensures s.results[s.popped + (j - s.pop)] == Some(s.buf[BULK * j..BULK * j + s.size[j]])
  {
    hide SlotOf, Holders, Arrivals, Issued, Reading, Fifo;
    var n := s.popped + (j - s.pop);
    SlotAhead(s.popped, j - s.pop);
    assert SlotRight(s.size, s.buf, s.results[n], n);
  }

  /** A read returns the bytes of the submissions that it consumes. */
  lemma ReturnedStream(s: State)
    requires Inv(s) && s.reader.Finish?
    ensures var s' := Returned(s);
      s'.popped <= |s.results| && Fifo(s'.popped, s.results, s'.delivered)
  {
    hide SlotOf, Stream, Holders, Arrivals, Issued, Window, Slots;
    var i, remain := s.reader.i, s.reader.remain;
    WholeSlots(s, i);
    if remain >= 0 {
      SlotIsResult(s, i);
      StreamOneMore(s.results, s.popped + (i - s.pop));
      ReadJoins(s.buf, s.pop, i, remain, s.delivered);
    }
  }

  lemma ReadJoins(buf: Memory, pop: nat, i: nat, remain: nat, before: seq<byte>)
    requires pop <= i < SLOTS && remain <= BULK
    ensures before + buf[BULK * pop..BULK * pop + ((i - pop) * BULK + remain)]
         == before + buf[BULK * pop..BULK * i] + buf[BULK * i..BULK * i + remain]
  {
    assert BULK * pop + ((i - pop) * BULK + remain) == BULK * i + remain;
  }

  lemma ReturnedKeeps(s: State)
    requires Inv(s) && s.reader.Finish?
    ensures Inv(Returned(s))
  {
    hide SlotOf, Stream, Arrivals, Issued, SlotRight, Fifo, Holders;
    ReturnedStream(s);
    ReturnedWindow(s);
    ReturnedHolders(s);
  }

  lemma ReturnedWindow(s: State)
    requires Inv(s) && s.reader.Finish?
    ensures var s' := Returned(s);
      Window(s'.push, s'.pop, s'.popped, |s'.results|) && s.popped <= s'.popped
  {
    hide SlotOf, Stream, Holders, Slots, Arrivals, Issued, Fifo;
    var i := if s.reader.remain >= 0 then s.reader.i + 1 else s.reader.i;
    SlotAhead(s.popped, i - s.pop);
  }

  lemma ReturnedHolders(s: State)
    requires Inv(s) && s.reader.Finish?
    ensures var s' := Returned(s);
      Holders(s'.urbs, s'.producer, s'.size, s'.popped, |s'.results|)
  {
    hide SlotOf, Stream, Slots, Arrivals, Issued, Fifo;
    var s' := Returned(s);
    forall k | 0 <= k < URBS ensures HeldRight(Held(s'.urbs, s'.producer, k), s'.size, s'.popped, |s'.results|) {
      var h := Held(s.urbs, s.producer, k);
      assert HeldRight(h, s.size, s.popped, |s.results|);
      if h.Some? && h.value.0 < s'.popped {
        SlotAhead(s.popped, h.value.0 - s.popped);
      }
    }
    forall j, k | 0 <= j < k < URBS ensures Apart(Held(s'.urbs, s'.producer, j), Held(s'.urbs, s'.producer, k)) {
      assert Apart(Held(s.urbs, s.producer, j), Held(s.urbs, s.producer, k));
    }
  }

  // ------------------------------------------------------------ whole runs

  lemma StepKeeps(s: State, e: Event)
    requires Inv(s) && Enabled(s, e)
    ensures Inv(Apply(s, e))
  {
    hide Inv, Marked, Pushed, Submitted, Completed, Reaped, Stored, Decided, Looked, Scanned, Returned;
    match e
    case MarkSlot => MarkedKeeps(s);
    case PushIndex => PushedKeeps(s);
    case SubmitUrb => SubmittedKeeps(s);
    case Complete(k, status, length, bytes) => CompletedKeeps(s, k, status, length, bytes);
    case Reap(k) => ReapedKeeps(s, k);
    case StoreSize => StoredKeeps(s);
    case Again => DecidedKeeps(s);
    case Cancel => CancelKeeps(s);
    case Exit => ExitKeeps(s);
    case Look => LookedKeeps(s);
    case ScanSlot => ScannedKeeps(s);
    case Return => ReturnedKeeps(s);
  }

  /** The program marks the next slot without testing for room. The invariant holds
      afterwards if and only if there was some; if not, both indices meet, and a
      reader that looks then finds nothing, with all slots outstanding. */
  lemma LapLosesTheRing(s: State)
    requires Inv(s) && s.producer.Prepare? && s.reader.Rest?
    ensures var s' := Pushed(Marked(s));
      && (Inv(s') <==> |s.results| - s.popped < 1019)
      && (Looked(s') == s' <==> !Inv(s'))
      && (!Inv(s') ==> |s'.results| - s'.popped == 1020)
  {
    hide Stream, SlotRight, Holders, Slots, Arrivals, Fifo, Issued, BlockFree;
    var count := |s.results|;
    SlotAhead(count, 1);
    if count - s.popped < SLOTS - 1 {
      MarkedKeeps(s);
      PushedKeeps(Marked(s));
      SlotsDiffer(s.popped, count + 1);
    } else {
      SameSlot(s.popped);
    }
  }

  lemma SameSlot(n: nat)
    ensures SlotOf(n + SLOTS) == SlotOf(n)
  {
  }

  /** A run: every event is possible where it happens. */
  ghost predicate Run(s: State, events: seq<Event>, s': State)
    decreases |events|
  {
    if events == [] then s' == s
    else Shaped(s) && Enabled(s, events[0]) && Run(Apply(s, events[0]), events[1..], s')
  }

  lemma {:induction false} RunKeeps(s: State, events: seq<Event>, s': State)
    requires Inv(s) && Run(s, events, s')
    ensures Inv(s')
    decreases |events|
  {
    hide Inv, Enabled, Apply;
    if events != [] {
      StepKeeps(s, events[0]);
      RunKeeps(Apply(s, events[0]), events[1..], s');
    }
  }

  // ------------------------------------------------------- a run up to the lap

  /** One event more. */
  lemma {:induction false} RunGoesOn(s: State, events: seq<Event>, s1: State, e: Event)
    requires Run(s, events, s1) && Shaped(s1) && Enabled(s1, e)
    ensures Run(s, events + [e], Apply(s1, e))
    decreases |events|
  {
    hide Shaped, Enabled, Apply;
    if events == [] {
      assert [] + [e] == [e] && [e][1..] == [];
    } else {
      assert (events + [e])[1..] == events[1..] + [e];
      RunGoesOn(Apply(s, events[0]), events[1..], s1, e);
    }
  }

  /** So many submissions, none of them consumed, and nobody reads. */
  predicate Outstanding(s: State, count: nat) {
    !s.cancelled && s.reader == Rest && s.popped == 0 && |s.results| == count && Shaped(s)
  }

  /** The next slot is marked and submitted. */
  lemma GoesRound(s0: State, events: seq<Event>, s: State, count: nat) returns (events': seq<Event>, s': State)
    requires Run(s0, events, s) && Outstanding(s, count) && s.producer.Prepare? && count < SLOTS - 1
    ensures Run(s0, events', s') && Outstanding(s', count + 1) && s'.urbs[s.producer.k].Flight?
    ensures forall j | 0 <= j < URBS && j != s.producer.k :: s'.urbs[j] == s.urbs[j]
    ensures s'.starting == (s.starting && s.producer.k + 1 < URBS)
    ensures s'.producer == if s'.starting then Prepare(s.producer.k + 1) else Wait
  {
    hide Run;
    RunGoesOn(s0, events, s, MarkSlot);
    var s1 := Apply(s, MarkSlot);
    RunGoesOn(s0, events + [MarkSlot], s1, PushIndex);
    var s2 := Apply(s1, PushIndex);
    events' := events + [MarkSlot] + [PushIndex] + [SubmitUrb];
    RunGoesOn(s0, events + [MarkSlot] + [PushIndex], s2, SubmitUrb);
    s' := Apply(s2, SubmitUrb);
  }

  /** The first block is done, and is to be used again. */
  lemma TakesBack(s0: State, events: seq<Event>, s: State, count: nat) returns (events': seq<Event>, s': State)
    requires Run(s0, events, s) && Outstanding(s, count) && s.producer == Wait && !s.starting && s.urbs[0].Flight?
    ensures Run(s0, events', s') && Outstanding(s', count) && s'.producer == Prepare(0) && !s'.starting
  {
    hide Run, Filled;
    var e := Complete(0, 0, 0, seq(BULK, _ => 0));
    RunGoesOn(s0, events, s, e);
    var s1 := Apply(s, e);
    RunGoesOn(s0, events + [e], s1, Reap(0));
    var s2 := Apply(s1, Reap(0));
    RunGoesOn(s0, events + [e] + [Reap(0)], s2, StoreSize);
    var s3 := Apply(s2, StoreSize);
    RunGoesOn(s0, events + [e] + [Reap(0)] + [StoreSize], s3, Again);
    events', s' := events + [e] + [Reap(0)] + [StoreSize] + [Again], Apply(s3, Again);
  }

  lemma {:induction false} StartsUp(s0: State, events: seq<Event>, s: State, k: nat) returns (events': seq<Event>, s': State)
    requires Run(s0, events, s) && Outstanding(s, k) && k < URBS && s.producer == Prepare(k) && s.starting
    requires k > 0 ==> s.urbs[0].Flight?
    ensures Run(s0, events', s') && Outstanding(s', URBS) && s'.producer == Wait && !s'.starting && s'.urbs[0].Flight?
    decreases URBS - k
  {
    hide Run, Outstanding;
    events', s' := GoesRound(s0, events, s, k);
    if k + 1 < URBS {
      events', s' := StartsUp(s0, events', s', k + 1);
    }
  }

  lemma {:induction false} FillsUp(s0: State, events: seq<Event>, s: State, count: nat) returns (events': seq<Event>, s': State)
    requires Run(s0, events, s) && Outstanding(s, count) && s.producer == Wait && !s.starting && s.urbs[0].Flight?
    requires count < SLOTS
    ensures Run(s0, events', s') && Outstanding(s', SLOTS - 1) && s'.producer == Prepare(0)
    decreases SLOTS - count
  {
    hide Run, Outstanding;
    events', s' := TakesBack(s0, events, s, count);
    if count < SLOTS - 1 {
      events', s' := GoesRound(s0, events', s', count);
      events', s' := FillsUp(s0, events', s', count + 1);
    }
  }

  /** It does happen: from every start there is a run, with nobody reading, after
      which the program marks a slot for which there is no room. */
  lemma LapIsReached(s: State) returns (events: seq<Event>, s': State)
    requires Start(s)
    ensures Run(s, events, s') && Inv(s') && s'.producer.Prepare? && s'.reader.Rest?
    ensures !Inv(Pushed(Marked(s'))) && Looked(Pushed(Marked(s'))) == Pushed(Marked(s'))
  {
    hide Inv;
    events, s' := StartsUp(s, [], s, 0);
    events, s' := FillsUp(s, events, s', URBS);
    StartHolds(s);
    RunKeeps(s, events, s');
    LapLosesTheRing(s');
  }

  /** Whatever the order of the steps of both threads and of the device: the
      bytes read so far are exactly the bytes delivered for the submissions
      consumed so far, in the order of submission; all of those were finished. */
  lemma RingIsQueue(s: State, events: seq<Event>, s': State)
    requires Start(s) && Run(s, events, s')
    ensures s'.popped <= |s'.results| && s'.delivered == Stream(s'.results[..s'.popped])
    ensures forall n | 0 <= n < s'.popped :: s'.results[n].Some?
  {
    hide Start, Stream;
    StartHolds(s);
    RunKeeps(s, events, s');
  }

  /** Two requests in flight never share a slot, and their slots are not among
      those that the reader may return. */
  lemma FlightsApart(s: State, events: seq<Event>, s': State, j: nat, k: nat)
    requires Start(s) && Run(s, events, s')
    requires j < k < URBS && s'.urbs[j].Flight? && s'.urbs[k].Flight?
    ensures s'.urbs[j].slot != s'.urbs[k].slot
    ensures s'.urbs[j].slot < SLOTS && s'.size[s'.urbs[j].slot] == INVALID
  {
    hide Start;
    StartHolds(s);
    RunKeeps(s, events, s');
    OtherSlot(s', j, k);
    HeldByFlight(s', j);
  }

  /** After start-up the counter is the number of requests in flight, counting
      the one in the producer's hands: twenty until the cancellation, and when
      the thread has ended none is left. */
  lemma IssuedIsInFlight(s: State, events: seq<Event>, s': State)
    requires Start(s) && Run(s, events, s')
    ensures !s'.starting ==> s'.issued == Busy(s'.urbs) + (if InHand(s'.producer) then 1 else 0)
    ensures !s'.starting && !s'.cancelled ==> s'.issued == 20
    ensures s'.producer.Ended? ==> forall k | 0 <= k < URBS :: s'.urbs[k].Idle?
  {
    hide Start;
    StartHolds(s);
    RunKeeps(s, events, s');
    if s'.producer.Ended? {
      NotBusy(s'.urbs);
    }
  }

  lemma {:induction false} NotBusy(urbs: seq<Urb>)
    requires Busy(urbs) == 0
    ensures forall k | 0 <= k < |urbs| :: urbs[k].Idle?
  {
    if urbs != [] {
      NotBusy(urbs[..|urbs| - 1]);
    }
  }

  /** A read takes at least one slot if and only if the oldest submission that
      is not consumed has its size stored when the reader looks at it. */
  lemma ReadTakesFinishedSlots(s: State, s': State)
    requires Inv(s) && s.reader == Scan(s.pop) && s' == Scanned(s)
    ensures s.popped == |s.results| || s.size[s.pop] == INVALID <==> s'.reader == Finish(s.pop, -1)
    ensures s'.reader.Finish? && s'.reader != Finish(s.pop, -1) ==> Returned(s').popped == s.popped + 1
  {
    hide Holders, Arrivals, Fifo, Issued, Head;
    var p := s.pop;
    if s.popped < |s.results| {
      SlotsDiffer(s.popped, |s.results|);
      assert SlotRight(s.size, s.buf, s.results[s.popped], s.popped);
    }
  }

  /** What was read stays read, and what was consumed is never changed. */
  lemma HistoryIsKept(s: State, e: Event)
    requires Inv(s) && Enabled(s, e)
    ensures var s' := Apply(s, e);
      && s.delivered <= s'.delivered && s.popped <= s'.popped && |s.results| <= |s'.results|
      && forall n | 0 <= n < s.popped :: s'.results[n] == s.results[n]
  {
    hide Holders, Slots, Arrivals, Reading, Issued, Stream, SlotOf, Filled;
    if e.Complete? {
      HeldByFlight(s, e.k);
    }
  }
}
