// The two threads' methods, over a buffer, an array of sizes and an array of
// request blocks. Each does, without interruption, what steps of the event
// model do; what other orders of the steps can do is the event model's matter.

module IoThread {
  import opened Bytes
  import opened SectionModel
  import opened CaptureRing
  import opened RingInvariant

  /** The reader's scan, carried through. */
  function ScanAll(s: State): (s': State)
    requires Shaped(s) && (s.reader.Scan? || s.reader.Finish?)
    ensures Shaped(s') && s'.reader.Finish?
    decreases if s.reader.Scan? then SLOTS + 1 - s.reader.i else 0
  {
    if s.reader.Finish? then s else ScanAll(Scanned(s))
  }

  /** A whole call of readBuffer. */
  function ReadAll(s: State): State
    requires Shaped(s) && s.reader.Rest?
  {
    if Looked(s).reader.Rest? then s else Returned(ScanAll(Looked(s)))
  }

  lemma InvIsShaped(s: State)
    requires Inv(s)
    ensures Shaped(s)
  {
  }

  lemma {:induction false} ScanAllKeeps(s: State)
    requires Inv(s) && (s.reader.Scan? || s.reader.Finish?)
    ensures Inv(ScanAll(s))
    decreases if s.reader.Scan? then SLOTS + 1 - s.reader.i else 0
  {
    hide Inv, Scanned, Shaped;
    InvIsShaped(s);
    if s.reader.Scan? {
      ScannedKeeps(s);
      ScannedGoesOn(s);
      ScanAllKeeps(Scanned(s));
    }
  }

  lemma ScannedGoesOn(s: State)
    requires Shaped(s) && s.reader.Scan?
    ensures s.reader.i <= SLOTS && (Scanned(s).reader.Finish? || Scanned(s).reader == Scan(s.reader.i + 1))
  {
  }

  lemma ReadAllKeeps(s: State)
    requires Inv(s) && s.reader.Rest?
    ensures Inv(ReadAll(s))
  {
    hide Inv, Looked, ScanAll, Returned, Shaped;
    InvIsShaped(s);
    LookedKeeps(s);
    if !Looked(s).reader.Rest? {
      LookedStarts(s);
      ScanAllKeeps(Looked(s));
      ReturnedKeeps(ScanAll(Looked(s)));
    }
  }

  lemma LookedStarts(s: State)
    requires Shaped(s) && s.reader.Rest?
    ensures if s.push == s.pop then Looked(s) == s else Looked(s) == s.(reader := Scan(s.pop))
  {
  }

  /** A completed transfer: its status, how many bytes are good, and the slot. */
  datatype Delivery = Delivery(status: int, length: nat, bytes: seq<byte>)

  type Transfer = t: Delivery | t.length <= 16384 == |t.bytes| witness Delivery(0, 0, seq(16384, _ => 0))

  function Good(t: Transfer): seq<byte> {
    if t.status == 0 then t.bytes[..t.length] else []
  }

  /** The good bytes of all transfers, in order. */
  function Taken(ts: seq<Transfer>): seq<byte> {
    if ts == [] then [] else Good(ts[0]) + Taken(ts[1..])
  }

  lemma {:induction false} TakenJoins(a: seq<Transfer>, b: seq<Transfer>)
    ensures Taken(a + b) == Taken(a) + Taken(b)
    decreases |a|
  {
    if a == [] {
      assert a + b == b;
    } else {
      assert (a + b)[1..] == a[1..] + b;
      TakenJoins(a[1..], b);
    }
  }

  lemma TakenOneMore(ts: seq<Transfer>, i: nat)
    requires i < |ts|
    ensures Taken(ts[..i + 1]) == Taken(ts[..i]) + Good(ts[i])
  {
    assert ts[..i + 1] == ts[..i] + [ts[i]];
    TakenJoins(ts[..i], [ts[i]]);
    assert [ts[i]][1..] == [];
  }

  /** A request block as the program fills it in: where its pointers lead, and
      its length, which is 0 when it is not issued. */
  datatype Request = Request(slot: nat, bufferLength: int)

  class TsIoThread {
    const buf: array<byte>
    const actualSize: array<int>
    const urb: array<Request>
    var pushIndex: nat
    var popIndex: nat
    var isCancelled: bool
    var issuedRequestNum: int

    // What the device has in hand, where the producing thread is, and the
    // history of the ring.
    ghost var device: Blocks
    ghost var producer: Producer
    ghost var starting: bool
    ghost var results: seq<Option<seq<byte>>>
    ghost var popped: nat
    ghost var delivered: seq<byte>

    ghost predicate Allocated() {
      actualSize.Length == SLOTS && buf.Length == SLOTS * BULK && urb.Length == URBS
    }

    ghost function Ring(): State
      requires Allocated()
      reads this, buf, actualSize
    {
      State(pushIndex, popIndex, actualSize[..], buf[..], device, producer, starting, isCancelled, issuedRequestNum, Rest,
            results, popped, delivered)
    }

    /** A block in the device's hands leads to the slot of its request. */
    ghost predicate BlocksLead()
      requires Allocated()
      reads this, urb
    {
      forall k | 0 <= k < URBS :: Leads(device[k], urb[k])
    }

    /** All indices are in range; that is all the methods need. */
    ghost predicate Sane()
      reads this, buf, actualSize, urb
    {
      Allocated() && Shaped(Ring()) && BlocksLead()
    }

    /** The ring is the queue it is meant to be. */
    ghost predicate Valid()
      reads this, buf, actualSize, urb
    {
      Sane() && Inv(Ring())
    }

    constructor ()
      ensures Valid() && fresh(buf) && fresh(actualSize) && fresh(urb)
      ensures starting && producer == Prepare(0) && delivered == [] && results == [] && popped == 0 && !isCancelled
    {
      buf := new byte[SLOTS * BULK];
      actualSize := new int[SLOTS];
      urb := new Request[URBS](_ => Request(0, 0));
      pushIndex, popIndex, isCancelled := 0, 0, false;
      device, producer, starting, results, popped, delivered := seq(URBS, _ => Idle), Prepare(0), true, [], 0, [];
      new;
      StartHolds(Ring());
      InvIsShaped(Ring());
    }

    /** SetBufferPtrOfUrb, for a block that is not with the device. It does not
        look whether there is room for another slot. */
    method SetBufferPtrOfUrb(k: nat)
      requires Sane() && producer == Prepare(k) && device[k].Idle?
      modifies this`pushIndex, this`producer, this`results, actualSize, urb
      ensures Sane() && Ring() == Pushed(Marked(old(Ring()))) && urb[k] == Request(producer.slot, BULK)
      ensures forall j | 0 <= j < URBS && j != k :: urb[j] == old(urb[j])
      ensures old(Valid()) && |old(results)| - popped < SLOTS - 1 ==> Valid()
    {
      hide Inv;
      ghost var s := Ring();
      if Inv(s) && |results| - popped < SLOTS - 1 {
        MarkedKeeps(s);
        PushedKeeps(Marked(s));
      }
      actualSize[pushIndex] := INVALID;
      urb[k] := Request(pushIndex, BULK);
      producer, results := Submit(k, |results|, pushIndex), results + [None];
      if pushIndex < SLOTS - 1 {
        pushIndex := pushIndex + 1;
      } else {
        pushIndex := 0;
      }
    }

    /** usb_submiturb hands a block to the device. */
    ghost method SubmitUrb()
      requires Sane() && !starting && producer.Submit? && urb[producer.k].slot == producer.slot
      modifies this`device, this`producer
      ensures Sane() && Ring() == Submitted(old(Ring())) && (old(Valid()) ==> Valid())
    {
      hide Inv;
      if Inv(Ring()) {
        SubmittedKeeps(Ring());
      }
      device := device[producer.k := Flight(producer.n, producer.slot)];
      producer := Wait;
    }

    /** The device is done with block k: what it transferred is in the slot. */
    method Complete(k: nat, status: int, length: nat, bytes: seq<byte>)
      requires Sane() && k < URBS && device[k].Flight? && length <= BULK == |bytes|
      modifies this`device, this`results, buf
      ensures Sane() && Ring() == Completed(old(Ring()), k, status, length, bytes) && (old(Valid()) ==> Valid())
    {
      hide Inv;
      ghost var s := Ring();
      if Inv(s) {
        CompletedKeeps(s, k, status, length, bytes);
      }
      assert Leads(device[k], urb[k]);
      FillSlot(urb[k].slot, bytes);
      results := results[device[k].n := Some(if status == 0 then bytes[..length] else [])];
      device := device[k := Done(device[k].n, device[k].slot, status, length)];
    }

    method FillSlot(slot: nat, bytes: seq<byte>)
      requires Allocated() && slot < SLOTS && |bytes| == BULK
      modifies buf
      ensures buf[..] == Filled(old(buf[..]), slot, bytes)
    {
      ghost var was := buf[..];
      var at := BULK * slot;
      for i := 0 to BULK
        invariant buf[..] == was[..at] + bytes[..i] + was[at + i..]
      {
        buf[at + i] := bytes[i];
        assert buf[..] == was[..at] + bytes[..i + 1] + was[at + (i + 1)..];
      }
      assert bytes[..BULK] == bytes;
    }

    /** The start of operator(): twenty requests, one for each block. */
    method Begin()
      requires Valid() && starting && producer == Prepare(0) && |results| == 0 && popped == 0
      modifies this`pushIndex, this`producer, this`results, this`device, this`starting, this`issuedRequestNum, actualSize, urb
      ensures Valid() && !starting && producer.Wait? && issuedRequestNum == URBS
      ensures |results| == URBS && popped == 0 && forall k | 0 <= k < URBS :: device[k] == Flight(k, k)
    {
      hide Inv, Leads;
      for i := 0 to URBS
        invariant Valid() && starting && popped == 0
        invariant i < URBS ==> producer == Prepare(i) && |results| == i
        invariant i == URBS ==> |results| == URBS && producer == Submit(URBS - 1, URBS - 1, URBS - 1)
        invariant i == URBS ==> urb[URBS - 1].slot == URBS - 1
        invariant forall k | 0 <= k < i && k < URBS - 1 :: device[k] == Flight(k, k)
      {
        IndexIsCount(Ring());
        BlockIsIdle(Ring());
        SetBufferPtrOfUrb(i);
        if i + 1 < URBS {
          SubmitFirst();
        }
      }
      CountIsSetLast(Ring(), URBS);
      issuedRequestNum := URBS;
      SubmitLast();
    }

    /** The device takes a block during start-up. */
    ghost method SubmitFirst()
      requires Valid() && starting && producer.Submit? && producer.k + 1 < URBS && urb[producer.k].slot == producer.slot
      modifies this`device, this`producer
      ensures Valid() && Ring() == Submitted(old(Ring()))
    {
      hide Inv;
      SubmittedKeeps(Ring());
      InvIsShaped(Ring());
      device := device[producer.k := Flight(producer.n, producer.slot)];
      producer := Prepare(producer.k + 1);
    }

    ghost method SubmitLast()
      requires Valid() && starting && producer.Submit? && producer.k + 1 == URBS && urb[producer.k].slot == producer.slot
      requires issuedRequestNum == URBS
      modifies this`device, this`producer, this`starting
      ensures Valid() && Ring() == Submitted(old(Ring()))
    {
      hide Inv;
      SubmittedKeeps(Ring());
      InvIsShaped(Ring());
      device := device[producer.k := Flight(producer.n, producer.slot)];
      producer, starting := Wait, false;
    }

    /** One turn of the loop of reapUrbs: the device gives back block k. */
    method ReapUrb(k: nat, status: int, actualLength: nat)
      requires Sane() && producer.Wait? && !starting && k < URBS && device[k].Done?
      requires device[k].status == status && device[k].length == actualLength
      modifies this`pushIndex, this`producer, this`results, this`device, this`issuedRequestNum, actualSize, urb
      ensures Sane() && producer.Wait?
      ensures var s := Decided(Stored(Reaped(old(Ring()), k)));
        Ring() == if isCancelled then s else Submitted(Pushed(Marked(s)))
      ensures isCancelled ==> urb[k].bufferLength == 0
      ensures old(Valid()) && (isCancelled || |old(results)| - popped < SLOTS - 1) ==> Valid()
    {
      hide Inv, UrbInRange, ProducerInRange, ReaderInRange;
      ghost var s := Ring();
      TakenBackKeeps(s, k);
      assert Leads(device[k], urb[k]);
      actualSize[urb[k].slot] := if status == 0 then actualLength else 0;
      device := device[k := Idle];
      if isCancelled {
        urb[k] := urb[k].(bufferLength := 0);
        issuedRequestNum := issuedRequestNum - 1;
      } else {
        producer := Prepare(k);
        SetBufferPtrOfUrb(k);
        SubmitUrb();
      }
    }

    method Cancel()
      requires Sane()
      modifies this`isCancelled
      ensures Sane() && Ring() == old(Ring()).(cancelled := true) && (old(Valid()) ==> Valid())
    {
      hide Inv;
      if Inv(Ring()) {
        CancelKeeps(Ring());
      }
      isCancelled := true;
    }

    /** The scan of readBuffer over finished slots. */
    method ScanSlots() returns (i: nat, remain: int)
      requires Sane() && pushIndex != popIndex
      ensures popIndex <= i <= SLOTS && ScanAll(Looked(Ring())) == Ring().(reader := Finish(i, remain))
    {
      hide Inv;
      ghost var s := Ring();
      i, remain := popIndex, -1;
      ghost var t := Looked(s);
      while i < SLOTS && i != pushIndex
        invariant popIndex <= i <= SLOTS && remain == -1
        invariant Shaped(t) && t == s.(reader := Scan(i)) && ScanAll(t) == ScanAll(Looked(s))
      {
        if actualSize[i] == INVALID {
          break;
        } else if actualSize[i] < BULK {
          remain := actualSize[i];
          break;
        }
        i := i + 1;
        t := Scanned(t);
      }
      ScanEnds(t);
    }

    /** readBuffer: the bytes that its result and its pointer stand for. */
    method ReadBuffer() returns (data: seq<byte>)
      requires Sane()
      modifies this`popIndex, this`popped, this`delivered
      ensures Sane() && Ring() == ReadAll(old(Ring())) && delivered == old(delivered) + data
      ensures old(Valid()) ==> Valid() && delivered == Stream(results[..popped])
    {
      hide Inv, Stream, ScanAll, ReadAll, Leads, Looked, UrbInRange;
      ghost var s := Ring();
      ReadAllIsQueue(s);
      if pushIndex == popIndex {
        NothingToRead(s);
        return [];
      }
      var i, remain := ScanSlots();
      ReadAllIs(s, i, remain);
      var continuousSize := (i - popIndex) * BULK + if remain < 0 then 0 else remain;
      data := buf[popIndex * BULK..popIndex * BULK + continuousSize];
      if remain >= 0 {
        i := i + 1;
      }
      delivered, popped := delivered + data, popped + (i - popIndex);
      popIndex := if i < SLOTS then i else 0;
    }

    /** A capture from the start: the device completes the requests in the order
        in which they were submitted, each is taken back and used again, and the
        reader looks after each. It gets exactly the bytes transferred. */
    method Capture(ts: seq<Transfer>) returns (data: seq<byte>)
      requires Valid() && starting && producer == Prepare(0) && results == [] && popped == 0 && delivered == [] && !isCancelled
      modifies this`pushIndex, this`popIndex, this`producer, this`results, this`device, this`starting,
        this`issuedRequestNum, this`popped, this`delivered, actualSize, urb, buf
      ensures Valid() && data == Taken(ts) && popped == |ts| && |results| == |ts| + 20
    {
      hide Inv, Stream, ReadAll, SlotOf, Flying, Shaped, BlocksLead, Completed, Reaped, Stored, Decided, Marked, Pushed,
        Submitted;
      data := [];
      Begin();
      FirstFlights(device);
      for i := 0 to |ts|
        invariant Valid() && Steady(Ring(), i) && delivered == data == Taken(ts[..i])
      {
        var t, k := ts[i], i % URBS;
        ghost var s := Ring();
        CompletedIs(s, i, t);
        Complete(k, t.status, t.length, t.bytes);
        ReapUrb(k, t.status, t.length);
        assert Ring() == UsedAgain(s, k, t);
        OneRound(s, i, t);
        var more := ReadBuffer();
        data := data + more;
        TakenOneMore(ts, i);
      }
      assert ts[..|ts|] == ts;
    }
  }

  /** The twenty submissions from n on are in flight, each in its slot, in blocks
      used in turn. */
  ghost predicate Flying(device: Blocks, n: nat) {
    forall m | n <= m < n + URBS :: device[m % URBS] == Flight(m, SlotOf(m))
  }

  lemma FirstFlights(device: Blocks)
    requires forall k | 0 <= k < URBS :: device[k] == Flight(k, k)
    ensures Flying(device, 0)
  {
  }

  /** Block k completed, taken back and submitted again. */
  function UsedAgain(s: State, k: nat, t: Transfer): State
    requires Shaped(s) && k < URBS && s.urbs[k].Flight? && s.producer.Wait? && !s.cancelled
  {
    Submitted(Pushed(Marked(Decided(Stored(Reaped(Completed(s, k, t.status, t.length, t.bytes), k))))))
  }

  /** Between two rounds of a capture: n submissions are consumed, the next twenty
      in flight. */
  ghost predicate Steady(s: State, n: nat) {
    && Inv(s) && s.producer.Wait? && !s.starting && !s.cancelled && s.reader.Rest?
    && |s.results| == n + URBS && s.popped == n && Flying(s.urbs, n)
  }

  lemma CompletedIs(s: State, n: nat, t: Transfer)
    requires Steady(s, n)
    ensures Shaped(s) && s.urbs[n % URBS] == Flight(n, SlotOf(n))
    ensures var c := Completed(s, n % URBS, t.status, t.length, t.bytes);
      && c.urbs[n % URBS] == Done(n, SlotOf(n), t.status, t.length) && c.producer == s.producer && !c.starting
      && !c.cancelled && |c.results| == |s.results| && c.popped == n
  {
    hide Inv, SlotOf, Filled;
    InvIsShaped(s);
    assert s.urbs[n % URBS] == Flight(n, SlotOf(n));
  }

  lemma UsedAgainIs(s: State, n: nat, t: Transfer)
    requires Shaped(s) && s.producer.Wait? && !s.starting && !s.cancelled && s.reader.Rest?
    requires |s.results| == n + URBS && s.urbs[n % URBS] == Flight(n, SlotOf(n)) && s.push == SlotOf(n + URBS)
    ensures var s' := UsedAgain(s, n % URBS, t);
      && s'.producer.Wait? && !s'.starting && !s'.cancelled && s'.reader.Rest? && s'.popped == s.popped && s'.pop == s.pop
      && s'.results == s.results[n := Some(Good(t))] + [None] && s'.delivered == s.delivered
      && s'.urbs == s.urbs[n % URBS := Flight(n + URBS, SlotOf(n + URBS))]
      && s'.size[SlotOf(n)] == if t.status == 0 then t.length else 0
  {
    hide SlotOf, Filled;
    SlotsDiffer(n, n + URBS);
  }

  lemma FliesOn(urbs: Blocks, n: nat)
    requires Flying(urbs, n)
    ensures Flying(urbs[n % URBS := Flight(n + URBS, SlotOf(n + URBS))], n + 1)
  {
    hide SlotOf;
  }

  /** The next round's slot is still marked unfinished. */
  lemma NextIsUnfinished(s: State, n: nat)
    requires Inv(s) && Flying(s.urbs, n)
    ensures s.size[SlotOf(n)] == INVALID
  {
    hide SlotOf, Slots, Arrivals, Reading, Fifo, Issued;
    assert s.urbs[n % URBS] == Flight(n, SlotOf(n));
    assert HeldRight(Held(s.urbs, s.producer, n % URBS), s.size, s.popped, |s.results|);
  }

  /** With one finished slot before an unfinished one, one slot is read. */
  lemma ReadsOne(s: State)
    requires Inv(s) && s.reader.Rest? && s.popped + 1 < |s.results|
    requires s.size[SlotOf(s.popped)] != INVALID && s.size[SlotOf(s.popped + 1)] == INVALID
    ensures var r := ReadAll(s);
      && r.popped == s.popped + 1 && r.reader.Rest? && r.urbs == s.urbs && r.results == s.results
      && r.producer == s.producer && r.starting == s.starting && r.cancelled == s.cancelled
  {
    hide SlotOf, Holders, Arrivals, Issued, Fifo, Head;
    SlotsDiffer(s.popped, |s.results|);
    SlotsDiffer(s.popped + 1, |s.results|);
    SlotAhead(s.popped, 1);
    assert SlotRight(s.size, s.buf, s.results[s.popped], s.popped);
    var t := Looked(s);
    assert t.reader == Scan(s.pop);
    if s.size[s.pop] < BULK {
      ScanEnds(t);
    } else {
      var u := Scanned(t);
      assert u.reader == Scan(s.pop + 1);
      ScanEnds(u);
    }
  }

  /** A round: the oldest request is completed, taken back and used again, and
      its bytes are read. */
  lemma OneRound(s: State, n: nat, t: Transfer)
    requires Steady(s, n)
    requires var s1 := UsedAgain(s, n % URBS, t); Inv(s1)
    ensures var s1 := UsedAgain(s, n % URBS, t);
      Shaped(s1) && s1.reader.Rest? && Steady(ReadAll(s1), n + 1) && ReadAll(s1).results == s1.results
      && Stream(s1.results[..n + 1]) == s.delivered + Good(t) && s1.delivered == s.delivered
  {
    hide Inv, SlotOf, ReadAll, UsedAgain, Stream;
    CompletedIs(s, n, t);
    IndexOf(s);
    UsedAgainIs(s, n, t);
    var s1 := UsedAgain(s, n % URBS, t);
    InvIsShaped(s1);
    FliesOn(s.urbs, n);
    NextIsUnfinished(s1, n + 1);
    ReadsOne(s1);
    ReadAllKeeps(s1);
    ReadSoFar(s);
    StreamOneMore(s1.results, n);
    assert s1.results[..n] == s.results[..n];
  }

  lemma IndexOf(s: State)
    requires Inv(s)
    ensures s.push == SlotOf(|s.results|)
  {
  }

  /** A block taken back, up to the choice whether to use it again. */
  lemma TakenBackKeeps(s: State, k: nat)
    requires Shaped(s) && k < URBS && s.urbs[k].Done? && s.producer.Wait?
    ensures var s' := Decided(Stored(Reaped(s, k)));
      Shaped(s') && s.urbs[k].slot < SLOTS && s.urbs[k].length <= BULK && (Inv(s) ==> Inv(s'))
  {
    hide Inv, Reaped, Stored, Decided;
    assert UrbInRange(s.urbs[k], |s.results|);
    if Inv(s) {
      ReapedKeeps(s, k);
      ReapedStores(s, k);
      StoredKeeps(Reaped(s, k));
      DecidedKeeps(Stored(Reaped(s, k)));
    }
  }

  lemma ReapedStores(s: State, k: nat)
    requires Shaped(s) && k < URBS && s.urbs[k].Done?
    ensures Reaped(s, k).producer.Store? && Stored(Reaped(s, k)).producer.Decide?
  {
  }

  lemma NothingToRead(s: State)
    requires Shaped(s) && s.reader.Rest? && s.push == s.pop
    ensures ReadAll(s) == s
  {
  }

  lemma ReadAllIs(s: State, i: nat, remain: int)
    requires Shaped(s) && s.reader.Rest? && s.push != s.pop && ScanAll(Looked(s)) == s.(reader := Finish(i, remain))
    ensures s.pop <= i <= SLOTS && (remain >= 0 ==> i < SLOTS && remain < BULK)
    ensures var n, last := (i - s.pop) * BULK + (if remain < 0 then 0 else remain), if remain >= 0 then i + 1 else i;
      && 0 <= n && s.pop * BULK + n <= SLOTS * BULK
      && ReadAll(s) == s.(pop := if last < SLOTS then last else 0, popped := s.popped + (last - s.pop),
                          delivered := s.delivered + s.buf[s.pop * BULK..s.pop * BULK + n])
  {
    hide ScanAll, UrbInRange;
  }

  lemma ReadAllIsQueue(s: State)
    requires Shaped(s) && s.reader.Rest?
    ensures Inv(s) ==> var r := ReadAll(s); Inv(r) && r.popped <= |r.results| && r.delivered == Stream(r.results[..r.popped])
  {
    hide Inv, ReadAll, Shaped, Stream;
    if Inv(s) {
      ReadAllKeeps(s);
      ReadSoFar(ReadAll(s));
    }
  }

  lemma ReadSoFar(s: State)
    requires Inv(s)
    ensures s.popped <= |s.results| && s.delivered == Stream(s.results[..s.popped])
  {
  }

  /** Where the loop stops, the next step of the scan is its last. */
  lemma ScanEnds(s: State)
    requires Shaped(s) && s.reader.Scan? && Scanned(s).reader.Finish?
    ensures ScanAll(s) == Scanned(s)
  {
  }

  predicate Leads(u: Urb, r: Request) {
    match u
    case Idle => true
    case Flight(_, slot) => r.slot == slot
    case Done(_, slot, _, _) => r.slot == slot
  }

  /** During start-up the count of requests says nothing yet. */
  lemma CountIsSetLast(s: State, n: int)
    requires Inv(s) && s.starting
    ensures Inv(s.(issued := n))
  {
    hide Window, Prepared, BlockFree, Holders, Slots, Arrivals, Reading, Fifo;
  }

  lemma IndexIsCount(s: State)
    requires Inv(s) && |s.results| < SLOTS
    ensures s.push == |s.results|
  {
  }

  lemma BlockIsIdle(s: State)
    requires Inv(s) && s.producer.Prepare?
    ensures s.producer.k < URBS && s.urbs[s.producer.k].Idle?
  {
  }
}
