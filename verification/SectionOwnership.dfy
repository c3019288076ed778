// Who owns which section element: the state of a section parser's elements,
// and the transfers between the free pool, the output queue, the element at
// hand and the caller, as functions on that state.

module SectionOwnership {
  import opened Bytes
  import opened SectionModel
  import opened LinkedLists

  /** TS_SECTION: pointers into the buffer of one element. A data offset of 0
      stands for a null data pointer. */
  datatype Section = Section(hdr: Header, raw: array<byte>, data: nat, len: nat)

  /** TS_SECTION_ELEM, apart from its links. */
  datatype Slot = Slot(sect: Section, ref: int)

  type Elem = Node<Slot>

  // ----------------------------------------------------- what an element holds

  ghost predicate Sized(s: Section, buf: seq<byte>) {
    |buf| == MAX_RAW_SECTION_SIZE && s.len <= |buf|
  }

  ghost predicate NoExtension(h: Header) {
    h.tableIdExtension == h.versionNumber == h.currentNext == h.sectionNumber == h.lastSectionNumber == 0
  }

  /** The element is being filled and has the bytes raw, not yet a section. */
  ghost predicate Filling(s: Section, buf: seq<byte>, raw: seq<byte>) {
    && Sized(s, buf) && raw == buf[..s.len] && !Complete(raw)
    && s.data == (if HeaderKnown(raw) then DataOffset(raw) else 0)
    && (if HeaderKnown(raw) then s.hdr == ParseHeader(raw) else NoExtension(s.hdr))
  }

  /** The element holds the section raw. A long section too short for its own
      header has header fields from beyond its end. */
  ghost predicate Holds(s: Section, buf: seq<byte>, raw: seq<byte>) {
    && Sized(s, buf) && raw == buf[..s.len] && |raw| >= 3 && s.data == DataOffset(raw)
    && s.hdr.sectionLength == SectionLength(raw) && s.hdr.tableId == raw[0] as int
    && s.hdr.syntax == raw[1] as int / 128
    && (HeaderKnown(raw) ==> s.hdr == ParseHeader(raw))
  }

  // ------------------------------------------------------------ the invariant

  /** The elements of a parser: the pool, the queue, every element's fields,
      every buffer's bytes, the last accepted section, the sections lent to the
      caller with what they held then, and the peak number queued or lent. */
  datatype Own = Own(
    pool: seq<Elem>,
    buff: seq<Elem>,
    slots: map<Elem, Slot>,
    mem: map<array<byte>, seq<byte>>,
    last: Node?<Slot>,
    lent: map<Elem, seq<byte>>,
    peak: nat)

  const EMPTY := Own([], [], map[], map[], null, map[], 0)

  ghost predicate Distinct(es: seq<Elem>) {
    forall i, j | 0 <= i < j < |es| :: es[i] != es[j]
  }

  /** Every element is in exactly one place: the pool, the queue, or at hand. */
  ghost predicate Placed(o: Own, hand: Node?<Slot>) {
    && Distinct(o.pool) && Distinct(o.buff)
    && (forall e | e in o.pool :: e in o.slots && e !in o.buff && e != hand)
    && (forall e | e in o.buff :: e in o.slots && e != hand)
    && (hand != null ==> hand in o.slots)
    && (forall e | e in o.slots :: e in o.pool || e in o.buff || e == hand)
    && (o.last != null ==> o.last in o.slots && o.last != hand)
    && (forall e | e in o.lent :: e in o.pool)
  }

  /** Every element has a buffer of its own. */
  ghost predicate Buffers(o: Own) {
    && (forall e | e in o.slots :: o.slots[e].sect.raw in o.mem && Sized(o.slots[e].sect, o.mem[o.slots[e].sect.raw]))
    && (forall e, f | e in o.slots && f in o.slots && o.slots[e].sect.raw == o.slots[f].sect.raw :: e == f)
  }

  /** The count of an element: one if it is the last accepted section, one if
      it is queued or lent. */
  ghost predicate Counted(o: Own) {
    forall e | e in o.slots :: o.slots[e].ref == One(e == o.last) + One(e in o.buff || e in o.lent)
  }

  /** The elements never outnumber the peak demand by more than two: one for
      the last accepted section, one for the section under way. */
  ghost predicate Bounded(o: Own, hand: Node?<Slot>) {
    && |o.buff| + |o.lent| <= o.peak
    && |o.pool| + |o.buff| + One(hand != null) <= o.peak + 2
  }

  ghost predicate HeldBy(o: Own, e: Elem, raw: seq<byte>)
    requires Buffers(o)
  {
    e in o.slots && Holds(o.slots[e].sect, o.mem[o.slots[e].sect.raw], raw)
  }

  /** The queue, the lent sections and the last one still hold what they did. */
  ghost predicate Kept(o: Own, m: Parser)
    requires Buffers(o)
  {
    && |m.queue| == |o.buff|
    && (forall i | 0 <= i < |o.buff| :: HeldBy(o, o.buff[i], m.queue[i]))
    && (forall e | e in o.lent :: HeldBy(o, e, o.lent[e]))
    && (o.last == null <==> m.last == None)
    && (o.last != null ==> HeldBy(o, o.last, m.last.value))
  }

  ghost predicate Inv(o: Own, hand: Node?<Slot>, m: Parser) {
    Placed(o, hand) && Buffers(o) && Counted(o) && Bounded(o, hand) && Kept(o, m)
  }

  /** The elements es lose nothing between o and o'. */
  ghost predicate Untouched(o: Own, o': Own, e: Elem)
    requires Buffers(o) && Buffers(o')
  {
    e in o.slots ==>
      && e in o'.slots && o'.slots[e].sect == o.slots[e].sect
      && o'.mem[o'.slots[e].sect.raw] == o.mem[o.slots[e].sect.raw]
  }

  /** A parser whose queued, lent and last sections are untouched is kept. */
  lemma KeptWhenUntouched(o: Own, o': Own, m: Parser)
    requires Buffers(o) && Buffers(o') && Kept(o, m)
    requires o'.buff == o.buff && o'.last == o.last
    requires forall e | e in o'.lent :: e in o.lent && o'.lent[e] == o.lent[e]
    requires forall e | e in o.buff || e in o'.lent || e == o.last :: Untouched(o, o', e)
    ensures Kept(o', m)
  {
    hide Holds, Buffers;
    forall i | 0 <= i < |o.buff| ensures HeldBy(o', o.buff[i], m.queue[i]) {
      assert Untouched(o, o', o.buff[i]);
    }
    forall e | e in o'.lent ensures HeldBy(o', e, o'.lent[e]) {
      assert Untouched(o, o', e);
    }
    if o.last != null {
      assert Untouched(o, o', o.last);
    }
  }

  // ------------------------------------------------------------ the transfers

  function Blank(s: Slot): Slot {
    Slot(s.sect.(hdr := BLANK_HEADER, len := 0, data := 0), 0)
  }

  /** An element at hand is filled: its fields and its buffer change. */
  ghost function Filled(o: Own, w: Elem, s: Section, buf: seq<byte>): Own
    requires w in o.slots
  {
    o.(slots := o.slots[w := o.slots[w].(sect := s)], mem := o.mem[s.raw := buf])
  }

  lemma FilledBuffers(o: Own, w: Elem, s: Section, buf: seq<byte>)
    requires w in o.slots && Buffers(o) && s.raw == o.slots[w].sect.raw && Sized(s, buf)
    ensures Buffers(Filled(o, w, s, buf))
    ensures forall e | e != w :: Untouched(o, Filled(o, w, s, buf), e)
  {
  }

  lemma FilledKeeps(o: Own, w: Elem, m: Parser, s: Section, buf: seq<byte>)
    requires Inv(o, w, m) && s.raw == o.slots[w].sect.raw && Sized(s, buf)
    ensures Inv(Filled(o, w, s, buf), w, m)
  {
    hide Buffers, Kept, Sized;
    FilledBuffers(o, w, s, buf);
    KeptWhenUntouched(o, Filled(o, w, s, buf), m);
  }

  /** cancel_elem_*: the element at hand goes back to the pool, empty. */
  ghost function Cancelled(o: Own, w: Elem): (o': Own)
    requires w in o.slots
    ensures o'.slots.Keys == o.slots.Keys && o'.mem == o.mem && o'.lent == o.lent
  {
    o.(pool := o.pool + [w], slots := o.slots[w := Blank(o.slots[w])])
  }

  lemma BlankedBuffers(o: Own, o': Own, w: Elem)
    requires w in o.slots && Buffers(o)
    requires o'.slots == o.slots[w := Blank(o.slots[w])] && o'.mem == o.mem
    ensures Buffers(o')
    ensures forall e | e != w :: Untouched(o, o', e)
  {
  }

  lemma CancelledKeeps(o: Own, w: Elem, m: Parser)
    requires Inv(o, w, m)
    ensures Inv(Cancelled(o, w), null, m)
  {
    hide Buffers, Kept;
    BlankedBuffers(o, Cancelled(o, w), w);
    KeptWhenUntouched(o, Cancelled(o, w), m);
  }

  /** commit_elem_updated: the element at hand joins the queue, and replaces
      the last accepted one, which loses a count. */
  ghost function Committed(o: Own, w: Elem): (o': Own)
    requires w in o.slots && (o.last != null ==> o.last in o.slots)
    ensures o'.slots.Keys == o.slots.Keys && o'.mem == o.mem && o'.lent == o.lent
  {
    var slots :=
      if o.last != null && o.slots[o.last].ref > 0 then
        o.slots[o.last := o.slots[o.last].(ref := o.slots[o.last].ref - 1)]
      else o.slots;
    var n := |o.buff| + 1 + |o.lent|;
    o.(buff := o.buff + [w], slots := slots[w := slots[w].(ref := 2)], last := w,
       peak := if n > o.peak then n else o.peak)
  }

  lemma RecountedBuffers(o: Own, o': Own)
    requires Buffers(o) && o'.mem == o.mem && o'.slots.Keys == o.slots.Keys
    requires forall e | e in o.slots :: o'.slots[e].sect == o.slots[e].sect
    ensures Buffers(o')
    ensures forall e :: Untouched(o, o', e)
  {
  }

  lemma CommittedPlaced(o: Own, w: Elem)
    requires Placed(o, w)
    ensures Placed(Committed(o, w), null)
  {
  }

  lemma CommittedCounted(o: Own, w: Elem)
    requires Placed(o, w) && Counted(o)
    ensures Counted(Committed(o, w))
  {
  }

  lemma CommittedKept(o: Own, w: Elem, m: Parser, raw: seq<byte>)
    requires w in o.slots && (o.last != null ==> o.last in o.slots)
    requires Buffers(o) && Kept(o, m) && HeldBy(o, w, raw) && Buffers(Committed(o, w))
    requires forall e :: Untouched(o, Committed(o, w), e)
    ensures Kept(Committed(o, w), m.(last := Some(raw), queue := m.queue + [raw]))
  {
    hide Buffers, Holds;
    var o' := Committed(o, w);
    forall e, x | HeldBy(o, e, x) ensures HeldBy(o', e, x) {
      assert Untouched(o, o', e);
    }
  }

  lemma CommittedKeeps(o: Own, w: Elem, m: Parser, raw: seq<byte>)
    requires Inv(o, w, m) && HeldBy(o, w, raw)
    ensures Inv(Committed(o, w), null, m.(last := Some(raw), queue := m.queue + [raw]))
  {
    hide Buffers, Kept, Counted;
    CommittedPlaced(o, w);
    CommittedCounted(o, w);
    RecountedBuffers(o, Committed(o, w));
    CommittedKept(o, w, m, raw);
  }

  /** query_work_elem, when the k-th element of the pool is free. */
  ghost function Reused(o: Own, k: nat): Own
    requires k < |o.pool| && o.pool[k] in o.slots
  {
    o.(pool := o.pool[..k] + o.pool[k + 1..], slots := o.slots[o.pool[k] := Blank(o.slots[o.pool[k]])])
  }

  lemma ReusedPlaced(o: Own, k: nat)
    requires Placed(o, null) && Counted(o) && k < |o.pool| && o.slots[o.pool[k]].ref < 1
    ensures Placed(Reused(o, k), o.pool[k])
  {
    var o', w := Reused(o, k), o.pool[k];
    assert w in o.pool && w != o.last && w !in o.lent && w !in o.buff;
    forall e | e in o.pool && e != w ensures e in o'.pool {
      var i :| 0 <= i < |o.pool| && o.pool[i] == e;
      assert e == o'.pool[if i < k then i else i - 1];
    }
  }

  lemma ReusedCounted(o: Own, k: nat)
    requires Placed(o, null) && Counted(o) && k < |o.pool| && o.slots[o.pool[k]].ref < 1
    ensures Counted(Reused(o, k))
  {
    assert o.pool[k] in o.pool;
  }

  lemma ReusedKeeps(o: Own, k: nat, m: Parser)
    requires Inv(o, null, m) && k < |o.pool| && o.slots[o.pool[k]].ref < 1
    ensures Inv(Reused(o, k), o.pool[k], m)
  {
    var o', w := Reused(o, k), o.pool[k];
    assert w in o.pool && w != o.last && w !in o.lent && w !in o.buff;
    ReusedPlaced(o, k);
    ReusedCounted(o, k);
    BlankedBuffers(o, o', w);
    hide Buffers, Kept, Counted, Placed;
    KeptWhenUntouched(o, o', m);
  }

  /** query_work_elem, when no element of the pool is free. */
  ghost function Created(o: Own, w: Elem, s: Slot, buf: seq<byte>): Own {
    o.(slots := o.slots[w := s], mem := o.mem[s.sect.raw := buf])
  }

  lemma CreatedBuffers(o: Own, w: Elem, s: Slot, buf: seq<byte>)
    requires Buffers(o) && w !in o.slots && s.sect.raw !in o.mem && Sized(s.sect, buf)
    ensures Buffers(Created(o, w, s, buf))
    ensures forall e :: Untouched(o, Created(o, w, s, buf), e)
  {
  }

  lemma CreatedPlaced(o: Own, w: Elem, s: Slot, buf: seq<byte>)
    requires Placed(o, null) && Counted(o) && w !in o.slots && s.ref == 0
    ensures Placed(Created(o, w, s, buf), w) && Counted(Created(o, w, s, buf))
  {
    assert w !in o.pool && w !in o.buff;
  }

  /** A pool without a free element holds lent sections and the last one only. */
  lemma PoolIsLentOrLast(o: Own)
    requires Placed(o, null) && Counted(o)
    requires forall e | e in o.pool :: o.slots[e].ref >= 1
    ensures |o.pool| <= |o.lent| + 1
  {
    var s: set<Elem> := o.lent.Keys + if o.last == null then {} else {o.last};
    DistinctFitsSet(o.pool, s);
  }

  lemma CreatedKeeps(o: Own, w: Elem, s: Slot, buf: seq<byte>, m: Parser)
    requires Inv(o, null, m)
    requires forall e | e in o.pool :: e in o.slots && o.slots[e].ref >= 1
    requires w !in o.slots && s.sect.raw !in o.mem && s.ref == 0 && Sized(s.sect, buf)
    ensures Inv(Created(o, w, s, buf), w, m)
  {
    hide Buffers, Kept, Placed, Counted, Sized;
    PoolIsLentOrLast(o);
    CreatedPlaced(o, w, s, buf);
    CreatedBuffers(o, w, s, buf);
    KeptWhenUntouched(o, Created(o, w, s, buf), m);
  }

  /** get_ts_section_parser: the head of the queue goes to the pool, lent. */
  ghost function Fetched(o: Own, raw: seq<byte>): Own
    requires o.buff != []
  {
    o.(pool := o.pool + [o.buff[0]], buff := o.buff[1..], lent := o.lent[o.buff[0] := raw])
  }

  lemma FetchedPlaced(o: Own, hand: Node?<Slot>, raw: seq<byte>)
    requires Placed(o, hand) && o.buff != []
    ensures Placed(Fetched(o, raw), hand)
    ensures |Fetched(o, raw).lent| == |o.lent| + 1
  {
    assert o.buff == [o.buff[0]] + o.buff[1..];
    assert o.buff[0] !in o.buff[1..] && o.buff[0] !in o.lent && o.buff[0] !in o.pool;
    assert forall i | 0 <= i < |o.pool| :: o.pool[i] in o.pool;
  }

  lemma FetchedCounted(o: Own, hand: Node?<Slot>, raw: seq<byte>)
    requires Placed(o, hand) && Counted(o) && o.buff != []
    ensures Counted(Fetched(o, raw))
  {
    assert o.buff == [o.buff[0]] + o.buff[1..];
    assert o.buff[0] !in o.buff[1..] && o.buff[0] !in o.lent;
  }

  lemma FetchedKept(o: Own, m: Parser)
    requires Buffers(o) && Kept(o, m) && o.buff != [] && Buffers(Fetched(o, m.queue[0]))
    requires forall e :: Untouched(o, Fetched(o, m.queue[0]), e)
    ensures Kept(Fetched(o, m.queue[0]), m.(queue := m.queue[1..]))
  {
    hide Buffers, Holds;
    var o' := Fetched(o, m.queue[0]);
    forall e, x | HeldBy(o, e, x) ensures HeldBy(o', e, x) {
      assert Untouched(o, o', e);
    }
  }

  lemma FetchedKeeps(o: Own, hand: Node?<Slot>, m: Parser)
    requires Inv(o, hand, m) && o.buff != []
    ensures Inv(Fetched(o, m.queue[0]), hand, m.(queue := m.queue[1..]))
  {
    hide Buffers, Placed, Counted;
    FetchedPlaced(o, hand, m.queue[0]);
    FetchedCounted(o, hand, m.queue[0]);
    RecountedBuffers(o, Fetched(o, m.queue[0]));
    FetchedKept(o, m);
  }

  /** ret_ts_section_parser: a lent section is given back. */
  ghost function Returned(o: Own, e: Elem): Own
    requires e in o.slots
  {
    o.(slots := o.slots[e := o.slots[e].(ref := o.slots[e].ref - 1)], lent := o.lent - {e})
  }

  lemma ReturnedPlaced(o: Own, hand: Node?<Slot>, e: Elem)
    requires Placed(o, hand) && Counted(o) && e in o.lent
    ensures e in o.slots && Placed(Returned(o, e), hand) && Counted(Returned(o, e))
    ensures |Returned(o, e).lent| == |o.lent| - 1
  {
    assert e in o.pool;
    assert Returned(o, e).lent.Keys == o.lent.Keys - {e};
    assert |o.lent.Keys - {e}| == |o.lent| - 1;
  }

  lemma ReturnedKeeps(o: Own, hand: Node?<Slot>, e: Elem, m: Parser)
    requires Inv(o, hand, m) && e in o.lent
    ensures e in o.slots && Inv(Returned(o, e), hand, m)
  {
    hide Buffers, Kept, Placed, Counted;
    ReturnedPlaced(o, hand, e);
    RecountedBuffers(o, Returned(o, e));
    KeptWhenUntouched(o, Returned(o, e), m);
  }

  /** The data pointers of two sections are equal. */
  predicate SamePointer(a: Section, b: Section) {
    if a.data == 0 || b.data == 0 then a.data == b.data else a.raw == b.raw && a.data == b.data
  }

  /** The last of these elements with the data pointer of the section. */
  ghost function Found(o: Own, es: seq<Elem>, sect: Section): Node?<Slot>
    decreases |es|
  {
    if es == [] then null
    else
      var e := es[|es| - 1];
      if e in o.slots && SamePointer(o.slots[e].sect, sect) then e else Found(o, es[..|es| - 1], sect)
  }

  /** Any section is handed back. */
  ghost function TakenBack(o: Own, sect: Section): Own {
    var w := Found(o, o.pool, sect);
    if w == null || w !in o.slots || o.slots[w].ref <= 0 then o else Returned(o, w)
  }

  /** The last accepted section is handed back by someone who does not have it. */
  ghost predicate Overdrawn(o: Own, sect: Section) {
    var w := Found(o, o.pool, sect);
    w != null && w == o.last && w !in o.lent
  }

  lemma {:induction false} FoundIsThere(o: Own, es: seq<Elem>, sect: Section)
    ensures var w := Found(o, es, sect); w != null ==> w in es && w in o.slots && SamePointer(o.slots[w].sect, sect)
    decreases |es|
  {
    if es != [] {
      FoundIsThere(o, es[..|es| - 1], sect);
    }
  }

  /** Whatever is handed back, the invariant holds afterwards if and only if that
      was not the last section without being lent: it would have no count left,
      and be free for use while it is compared with. */
  lemma TakenBackKeeps(o: Own, hand: Node?<Slot>, m: Parser, sect: Section)
    requires Inv(o, hand, m)
    ensures Inv(TakenBack(o, sect), hand, m) <==> !Overdrawn(o, sect)
  {
    hide Buffers, Kept, Found, Distinct, Bounded;
    var w := Found(o, o.pool, sect);
    FoundIsThere(o, o.pool, sect);
    if w != null && w in o.lent {
      ReturnedKeeps(o, hand, w, m);
    }
  }

  lemma LentPointers(o: Own, hand: Node?<Slot>, m: Parser, e: Elem, w: Elem)
    requires Inv(o, hand, m) && e in o.lent && w in o.pool
    ensures e in o.pool && o.slots[e].ref > 0
    ensures SamePointer(o.slots[w].sect, o.slots[e].sect) <==> w == e
  {
    hide Distinct;
    assert HeldBy(o, e, o.lent[e]);
  }

  /** A section that the caller has is found by its pointer, and is no longer lent. */
  lemma LentIsTakenBack(o: Own, hand: Node?<Slot>, m: Parser, e: Elem)
    requires Inv(o, hand, m) && e in o.lent
    ensures e in o.slots && TakenBack(o, o.slots[e].sect) == Returned(o, e) && !Overdrawn(o, o.slots[e].sect)
  {
    hide Inv, Found;
    LentPlace(o, hand, m, e);
    LentPointers(o, hand, m, e, e);
    LentIsFound(o, hand, m, o.pool, e);
  }

  lemma LentPlace(o: Own, hand: Node?<Slot>, m: Parser, e: Elem)
    requires Inv(o, hand, m) && e in o.lent
    ensures e in o.pool && e in o.slots
  {
  }

  lemma {:induction false} LentIsFound(o: Own, hand: Node?<Slot>, m: Parser, es: seq<Elem>, e: Elem)
    requires Inv(o, hand, m) && e in o.lent && e in o.slots && e in es && forall x | x in es :: x in o.pool
    ensures Found(o, es, o.slots[e].sect) == e
    decreases |es|
  {
    hide Inv;
    var x := es[|es| - 1];
    LentPointers(o, hand, m, e, x);
    if x != e {
      assert es == es[..|es| - 1] + [x];
      LentIsFound(o, hand, m, es[..|es| - 1], e);
    }
  }

  // --------------------------------------------------------------- the bound

  lemma SubsetIsSmaller<T>(s: set<T>, t: set<T>)
    requires s <= t
    ensures |s| <= |t|
  {
    assert t == s + (t - s);
  }

  lemma {:induction false} SetOfSeq<T>(xs: seq<T>)
    ensures |set x | x in xs| <= |xs|
  {
    if xs != [] {
      SetOfSeq(xs[1..]);
      assert (set x | x in xs) == {xs[0]} + (set x | x in xs[1..]);
    }
  }

  /** No more elements are ever allocated than the largest number of sections
      queued or lent at one time, and two. */
  lemma ElementsAreBounded(o: Own, hand: Node?<Slot>, m: Parser)
    requires Inv(o, hand, m)
    ensures |o.slots| <= o.peak + 2
  {
    hide Buffers, Counted, Kept, Distinct;
    var p, q := set e | e in o.pool, set e | e in o.buff;
    var h: set<Elem> := if hand == null then {} else {hand};
    assert o.slots.Keys <= p + q + h;
    SubsetIsSmaller(o.slots.Keys, p + q + h);
    UnionIsSmaller(p + q, h);
    UnionIsSmaller(p, q);
    SetOfSeq(o.pool);
    SetOfSeq(o.buff);
  }

  lemma UnionIsSmaller<T>(s: set<T>, t: set<T>)
    ensures |s + t| <= |s| + |t|
  {
    assert s + t == s + (t - s);
    SubsetIsSmaller(t - s, t);
  }
}
