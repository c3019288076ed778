// The section parser in place: elements move between a free pool, an output
// queue, a work slot and the caller's hands, and are recycled when their small
// reference count falls to zero. The class refines SectionModel.Parser.

module SectionParser {
  import opened Bytes
  import opened SectionModel
  import opened LinkedLists
  import opened SectionOwnership
  import Crc32
  import SectionTheorems

  // ------------------------------------------------------- filling an element

  lemma HeaderStays(raw: seq<byte>, all: seq<byte>)
    requires HeaderKnown(raw) && raw <= all
    ensures HeaderKnown(all) && ParseHeader(all) == ParseHeader(raw)
    ensures DataOffset(all) == DataOffset(raw) && TotalLength(all) == TotalLength(raw)
  {
  }

  /** The buffer has room for every byte that a section can still need. */
  lemma CapLosesNothing(raw: seq<byte>, data: seq<byte>, n: nat)
    requires !Complete(raw) && |raw| <= MAX_RAW_SECTION_SIZE
    requires n == if |data| < MAX_RAW_SECTION_SIZE - |raw| then |data| else MAX_RAW_SECTION_SIZE - |raw|
    ensures Complete(raw + data[..n]) == Complete(raw + data)
    ensures Complete(raw + data) ==> First(raw + data[..n]) == First(raw + data)
    ensures !Complete(raw + data) ==> n == |data|
  {
    if n < |data| {
      HeaderStays(raw + data[..n], raw + data);
    } else {
      assert data[..n] == data;
    }
  }

  /** memcpy into the buffer behind what it holds. */
  method CopyBytes(raw: array<byte>, at: nat, data: seq<byte>, n: nat)
    requires at + n <= raw.Length && n <= |data|
    modifies raw
    ensures raw[..at + n] == old(raw[..at]) + data[..n]
  {
    forall i | 0 <= i < n {
      raw[at + i] := data[i];
    }
  }

  method AppendSectionData(e: Elem, ghost raw: seq<byte>, data: seq<byte>)
    requires Filling(e.value.sect, e.value.sect.raw[..], raw)
    modifies e`value, e.value.sect.raw
    ensures e.value.ref == old(e.value.ref) && e.value.sect.raw == old(e.value.sect.raw)
    ensures var s, all := e.value.sect, raw + data;
      && Sized(s, s.raw[..])
      && (Complete(all) ==> Holds(s, s.raw[..], First(all)))
      && (!Complete(all) ==> Filling(s, s.raw[..], all))
  {
    var s := e.value.sect;
    assert s.raw[..s.len] == s.raw[..][..s.len];
    var m, n := s.len, MAX_RAW_SECTION_SIZE - s.len;
    if |data| < n {
      n := |data|;
    }
    CapLosesNothing(raw, data, n);
    CopyBytes(s.raw, m, data, n);
    s := s.(len := m + n);
    m := m + n;
    ghost var got := raw + data[..n];
    assert s.raw[..s.len] == got;
    if s.data == 0 {
      s := ExtractHeader(s);
    } else {
      HeaderStays(raw, got);
    }
    if s.data != 0 {
      n := s.hdr.sectionLength + 3;
      if m > n {
        s := s.(len := n);
        assert s.raw[..s.len] == First(got);
      } else if m == n {
        assert got[..n] == got;
      }
    }
    assert s.raw[..][..s.len] == s.raw[..s.len];
    e.value := e.value.(sect := s);
  }

  method ExtractHeader(s: Section) returns (t: Section)
    requires s.len <= s.raw.Length && NoExtension(s.hdr)
    ensures t.raw == s.raw && t.len == s.len
    ensures var raw := s.raw[..s.len];
      && t.data == (if HeaderKnown(raw) then DataOffset(raw) else 0)
      && if HeaderKnown(raw) then t.hdr == ParseHeader(raw) else NoExtension(t.hdr)
  {
    var p := s.raw[..s.len];
    t := s.(data := 0);
    if s.len < 3 {
      return;
    }
    t := t.(hdr := t.hdr.(
      tableId := p[0] as int,
      syntax := p[1] as int / 128,
      privateIndicator := p[1] as int / 64 % 2,
      sectionLength := Be16(p[1], p[2]) % 4096));
    if t.hdr.syntax == 0 {
      t := t.(data := 3);
      return;
    }
    if s.len < 8 {
      return;
    }
    t := t.(data := 8, hdr := t.hdr.(
      tableIdExtension := Be16(p[3], p[4]),
      versionNumber := p[5] as int / 2 % 32,
      currentNext := p[5] as int % 2,
      sectionNumber := p[6] as int,
      lastSectionNumber := p[7] as int));
  }

  /** The lists are apart, and e is in neither. */
  ghost predicate Apart(o: Own, e: Elem) {
    e !in o.pool && e !in o.buff && forall f | f in o.pool :: f !in o.buff
  }

  // ----------------------------------------------------------- the parser

  class TsSectionParser {
    var pid: int
    var work: Node?<Slot>
    var last: Node?<Slot>
    const pool: List<Slot>
    const buff: List<Slot>
    var stat: Stat

    // The abstract parser, the owners of the elements, and the sections that
    // get has returned so far.
    ghost var model: Parser
    ghost var own: Own
    ghost var delivered: seq<seq<byte>>

    // The calls so far.
    ghost var ops: seq<SectionTheorems.Op>

    // The lists, the elements and the buffers.
    ghost var repr: set<object>

    /** The fields and the elements are as the ghost state says. */
    ghost predicate Tied()
      reads *
    {
      && pool != buff && pool.Valid() && buff.Valid()
      && pool.nodes == own.pool && buff.nodes == own.buff && last == own.last
      && (forall e | e in own.slots :: e.value == own.slots[e])
      && (forall raw | raw in own.mem :: raw[..] == own.mem[raw])
      && pid == model.pid && stat == model.stat
      && this !in repr && pool in repr && buff in repr
      && (forall e | e in own.slots :: e in repr) && (forall raw | raw in own.mem :: raw in repr)
    }

    /** The state inside a call, with one element at hand. */
    ghost predicate Busy(hand: Node?<Slot>)
      reads *
    {
      Tied() && Inv(own, hand, model)
    }

    /** Between calls the element at hand is in the work slot. */
    ghost predicate Valid()
      reads *
    {
      && Busy(work)
      && (work == null <==> model.work == [])
      && (work != null ==> FillingAt(work, model.work))
    }

    /** The parser has done what a run of its calls does. */
    ghost predicate Historic()
      reads this
    {
      (model, delivered) == SectionTheorems.Run(NEW_PARSER, ops)
    }

    ghost predicate FillingAt(e: Elem, raw: seq<byte>)
      reads this
    {
      && e in own.slots && own.slots[e].sect.raw in own.mem
      && Filling(own.slots[e].sect, own.mem[own.slots[e].sect.raw], raw)
    }

    constructor ()
      ensures Valid() && Historic() && model == NEW_PARSER && delivered == [] && own == EMPTY && ops == []
      ensures fresh(repr)
    {
      pid, work, last, stat := -1, null, null, Stat(0, 0, 0);
      pool := new List<Slot>();
      buff := new List<Slot>();
      model, delivered, own := NEW_PARSER, [], EMPTY;
      repr := {pool, buff};
      ops := [];
    }

    // ------------------------------------------------ single field updates

    method SetSlot(e: Elem, v: Slot)
      requires Tied() && e in own.slots
      modifies this`own, e`value
      ensures Tied() && own == old(own).(slots := old(own).slots[e := v])
    {
      hide List.Valid;
      e.value := v;
      own := own.(slots := own.slots[e := v]);
    }

    method SetRef(e: Elem, ref: int)
      requires Tied() && e in own.slots
      modifies this`own, e`value
      ensures Tied() && own == old(own).(slots := old(own).slots[e := old(own).slots[e].(ref := ref)])
    {
      SetSlot(e, e.value.(ref := ref));
    }

    /** reset_section, and no reference. */
    method SetBlank(e: Elem)
      requires Tied() && e in own.slots
      modifies this`own, e`value
      ensures Tied() && own == old(own).(slots := old(own).slots[e := Blank(old(own).slots[e])])
    {
      SetSlot(e, Blank(e.value));
    }

    method PutInPool(e: Elem)
      requires Tied() && Apart(own, e)
      modifies this`own, pool, pool.nodes`next, e`prev, e`next
      ensures Tied() && own == old(own).(pool := old(own).pool + [e])
    {
      hide List.Valid;
      assert forall i | 0 <= i < |buff.nodes| :: buff.nodes[i] !in pool.nodes && buff.nodes[i] != e;
      pool.PutTail(e);
      own := own.(pool := own.pool + [e]);
    }

    method PutInQueue(e: Elem)
      requires Tied() && Apart(own, e)
      modifies this`own, buff, buff.nodes`next, e`prev, e`next
      ensures Tied() && own == old(own).(buff := old(own).buff + [e])
    {
      hide List.Valid;
      assert forall i | 0 <= i < |pool.nodes| :: pool.nodes[i] !in buff.nodes && pool.nodes[i] != e;
      buff.PutTail(e);
      own := own.(buff := own.buff + [e]);
    }

    method CountSection(unique: int, error: int)
      requires Tied()
      modifies this`stat, this`model
      ensures Tied()
      ensures model == old(model).(
          stat := Stat(old(model).stat.total + 1, old(model).stat.unique + unique, old(model).stat.error + error))
    {
      hide List.Valid;
      stat := Stat(stat.total + 1, stat.unique + unique, stat.error + error);
      model := model.(stat := stat);
    }

    // --------------------------------------------- taking and giving elements

    /** cancel_elem_error (error is 1) and cancel_elem_same (error is 0). */
    method Cancel(w: Elem, error: int)
      requires Busy(w)
      modifies this`stat, this`model, this`own, pool, pool.nodes`next, w`prev, w`next, w`value
      ensures Busy(null) && own == Cancelled(old(own), w)
      ensures model == old(model).(
          stat := Stat(old(model).stat.total + 1, old(model).stat.unique, old(model).stat.error + error))
    {
      hide List.Valid, Inv, Placed, TsSectionParser.Tied;
      HandIsPlaced(own, w, model);
      CancelledKeeps(own, w, model);
      PutInPool(w);
      SetBlank(w);
      CountSection(0, error);
      InvIgnoresStat(own, null, old(model), model);
    }

    /** commit_elem_updated: the section joins the queue and becomes the last. */
    method Commit(w: Elem, ghost raw: seq<byte>)
      requires Busy(w) && HeldBy(own, w, raw)
      modifies this`stat, this`model, this`own, this`last, own.slots.Keys`value, buff, buff.nodes`next, w`prev, w`next
      ensures Busy(null) && own == Committed(old(own), w)
      ensures model == old(model).(
          last := Some(raw), queue := old(model).queue + [raw],
          stat := Stat(old(model).stat.total + 1, old(model).stat.unique + 1, old(model).stat.error))
    {
      hide List.Valid, Inv, Placed, HeldBy, Buffers;
      HandIsPlaced(own, w, model);
      CommittedKeeps(own, w, model, raw);
      ghost var m := model;
      MoveToQueue(w);
      hide TsSectionParser.Tied;
      CountSection(1, 0);
      QueueInModel(raw);
      InvIgnoresStat(own, null, m.(last := Some(raw), queue := m.queue + [raw]), model);
    }

    method MoveToQueue(w: Elem)
      requires Tied() && Apart(own, w) && w in own.slots
      requires own.last != null ==> own.last in own.slots && own.last != w
      modifies this`own, this`last, own.slots.Keys`value, buff, buff.nodes`next, w`prev, w`next
      ensures Tied() && own == Committed(old(own), w)
    {
      hide List.Valid, TsSectionParser.Tied;
      UncountLast();
      SetRef(w, 2);
      PutInQueue(w);
      SetLast(w);
    }

    method UncountLast()
      requires Tied() && (own.last != null ==> own.last in own.slots)
      modifies this`own, own.slots.Keys`value
      ensures Tied()
      ensures own == old(own).(slots :=
        if old(own).last != null && old(own).slots[old(own).last].ref > 0 then
          old(own).slots[old(own).last := old(own).slots[old(own).last].(ref := old(own).slots[old(own).last].ref - 1)]
        else old(own).slots)
    {
      hide List.Valid;
      if last != null && last.value.ref > 0 {
        SetRef(last, last.value.ref - 1);
      }
    }

    method SetLast(w: Elem)
      requires Tied()
      modifies this`own, this`last
      ensures Tied()
      ensures var n := |old(own).buff| + |old(own).lent|;
        own == old(own).(last := w, peak := if n > old(own).peak then n else old(own).peak)
    {
      hide List.Valid;
      last := w;
      own := own.(last := w, peak := if |own.buff| + |own.lent| > own.peak then |own.buff| + |own.lent| else own.peak);
    }

    ghost method QueueInModel(raw: seq<byte>)
      requires Tied()
      modifies this`model
      ensures Tied()
      ensures model == old(model).(last := Some(raw), queue := old(model).queue + [raw])
    {
      hide List.Valid;
      model := model.(last := Some(raw), queue := model.queue + [raw]);
    }

    /** The first element of the pool that nothing refers to. */
    method FindFree() returns (r: Node?<Slot>, ghost k: nat)
      requires Busy(null)
      ensures r == null ==> forall e | e in own.pool :: e in own.slots && own.slots[e].ref >= 1
      ensures r != null ==> k < |own.pool| && own.pool[k] == r && r in own.slots && own.slots[r].ref < 1
    {
      hide Buffers, Kept, Counted;
      r, k := pool.head, 0;
      assert forall j | 0 <= j < |own.pool| :: own.pool[j] in own.pool;
      while r != null
        invariant k <= |own.pool| && r == if k < |own.pool| then own.pool[k] else null
        invariant forall j | 0 <= j < k :: own.slots[own.pool[j]].ref >= 1
        decreases |own.pool| - k
      {
        if r.value.ref < 1 {
          return;
        }
        assert r == pool.nodes[k];
        r, k := r.next, k + 1;
      }
    }

    method TakeFromPool(e: Elem, ghost k: nat)
      requires Tied() && k < |own.pool| && own.pool[k] == e && Distinct(own.pool)
      requires forall f | f in own.pool :: f !in own.buff
      modifies this`own, pool, pool.nodes`prev, pool.nodes`next
      ensures Tied() && own == old(own).(pool := old(own).pool[..k] + old(own).pool[k + 1..])
    {
      hide List.Valid;
      assert forall i | 0 <= i < |buff.nodes| :: buff.nodes[i] !in pool.nodes;
      pool.Unlink(e, k);
      own := own.(pool := own.pool[..k] + own.pool[k + 1..]);
    }

    /** create_ts_section_elem */
    method CreateElem() returns (w: Elem)
      requires Busy(null)
      requires forall e | e in own.pool :: e in own.slots && own.slots[e].ref >= 1
      modifies this`own, this`repr
      ensures Busy(w) && FillingAt(w, []) && own.lent == old(own).lent
      ensures fresh(repr - old(repr))
    {
      hide List.Valid, Inv, Placed;
      var raw := new byte[MAX_RAW_SECTION_SIZE](_ => 0);
      w := new Node(Slot(Section(BLANK_HEADER, raw, 0, 0), 0));
      CreatedKeeps(own, w, w.value, raw[..], model);
      own := Created(own, w, w.value, raw[..]);
      repr := repr + {w, raw};
    }

    method QueryWorkElem() returns (w: Elem)
      requires Busy(null)
      modifies this`own, this`repr, repr
      ensures Busy(w) && FillingAt(w, []) && own.lent == old(own).lent
      ensures fresh(repr - old(repr))
    {
      hide List.Valid, Inv, TsSectionParser.Tied, Filling;
      var r, k := FindFree();
      NodesAreElems(null);
      if r != null {
        w := r;
        ReusedKeeps(own, k, model);
        FreeIsPlaced(own, k, model);
        BlankIsFilling(own, own.pool[k], model);
        TakeFromPool(w, k);
        SetBlank(w);
      } else {
        w := CreateElem();
      }
    }

    /** append_section_data on the element at hand. */
    method Fill(w: Elem, ghost raw: seq<byte>, data: seq<byte>)
      requires Busy(w) && FillingAt(w, raw)
      modifies this`own, repr
      ensures Busy(w) && own.lent == old(own).lent
      ensures Complete(raw + data) ==> HeldBy(own, w, First(raw + data))
      ensures !Complete(raw + data) ==> FillingAt(w, raw + data)
    {
      hide List.Valid, Complete, Filling, Holds, Inv, Buffers;
      BuffersOf(own, w, model);
      AppendSectionData(w, raw, data);
      ghost var s := w.value.sect;
      FilledKeeps(own, w, model, s, s.raw[..]);
      own := Filled(own, w, s, s.raw[..]);
      BuffersOf(own, w, model);
    }

    /** A complete section is checked, compared with the last one, and accepted
        or not; the element at hand goes with it. */
    method Judge(w: Elem, ghost raw: seq<byte>) returns (r: int)
      requires Busy(w) && HeldBy(own, w, raw) && |raw| >= 3
      modifies this`stat, this`model, this`own, this`last, repr
      ensures Busy(null) && own.lent == old(own).lent
      ensures (model, r) == Finish(old(model), raw)
    {
      hide List.Valid, Inv, Buffers, Sound, TsSectionParser.Tied;
      BuffersOf(own, w, model);
      r := 0;
      NodesAreElems(w);
      var ok := IsSound(w, raw);
      if !ok {
        Cancel(w, 1);
        return WARN_CRC_MISMATCH;
      }
      var same := SameAsLast(w, raw);
      if same {
        Cancel(w, 0);
      } else {
        Commit(w, raw);
      }
    }

    method IsSound(w: Elem, ghost raw: seq<byte>) returns (ok: bool)
      requires Busy(w) && HeldBy(own, w, raw) && |raw| >= 3
      ensures ok <==> Sound(raw)
    {
      hide List.Valid, Inv, Buffers;
      BuffersOf(own, w, model);
      var s := w.value.sect;
      ok := true;
      if s.hdr.syntax != 0 {
        var crc := Crc32.Crc32(s.raw, s.len);
        ok := crc == 0;
      }
    }

    /** compare_elem_section with the last accepted section. */
    method SameAsLast(w: Elem, ghost raw: seq<byte>) returns (same: bool)
      requires Busy(w) && HeldBy(own, w, raw)
      ensures same <==> model.last == Some(raw)
    {
      hide List.Valid, Counted, Placed;
      if last == null {
        return false;
      }
      var a, b := w.value.sect, last.value.sect;
      if a.len != b.len {
        return false;
      }
      same := a.raw[..a.len] == b.raw[..b.len];
    }

    // ------------------------------------------------------------ put

    lemma NodesAreElems(hand: Node?<Slot>)
      requires Busy(hand)
      ensures pool in repr && buff in repr && this !in repr
      ensures forall e | e in own.slots :: e in repr
      ensures forall raw | raw in own.mem :: raw in repr
      ensures forall e | e in pool.nodes :: e in repr
      ensures forall e | e in buff.nodes :: e in repr
      ensures hand != null ==> hand in repr
    {
      hide List.Valid, Buffers, Kept, Counted;
    }

    /** check_section_complete, after the bytes all have been put together. */
    method CheckSectionComplete(w: Elem, ghost all: seq<byte>) returns (done: bool, length: nat)
      requires Busy(w)
      requires Complete(all) ==> HeldBy(own, w, First(all))
      requires !Complete(all) ==> FillingAt(w, all)
      ensures done <==> Complete(all)
      ensures done ==> length == |First(all)|
    {
      hide List.Valid, Inv, Buffers;
      BuffersOf(own, w, model);
      var s := w.value.sect;
      done, length := s.data != 0 && s.hdr.sectionLength + 3 <= s.len, s.len;
    }

    /** The unfinished section is remembered for the next packet. */
    method KeepWorking(w: Elem, ghost raw: seq<byte>)
      requires Busy(w) && FillingAt(w, raw) && raw != []
      modifies this`work, this`model
      ensures Valid() && model == old(model).(work := raw)
    {
      hide List.Valid, Inv, Filling;
      work := w;
      model := model.(work := raw);
      InvIgnoresStat(own, w, old(model), model);
    }

    /** The element in the work slot is taken out. */
    method TakeWork() returns (w: Node?<Slot>)
      requires Valid()
      modifies this`work, this`model
      ensures w == old(work) && work == null && Busy(w)
      ensures w == null <==> old(model).work == []
      ensures w != null ==> FillingAt(w, old(model).work)
      ensures model == old(model).(work := [])
    {
      hide List.Valid, Inv, Filling;
      w := work;
      work := null;
      model := model.(work := []);
      InvIgnoresStat(own, w, old(model), model);
    }

    /** The element at hand takes in data. If that completes its section the
        section is judged, and otherwise the element becomes the work element. */
    method TakeIn(w: Elem, ghost raw: seq<byte>, data: seq<byte>) returns (r: int, done: bool, length: nat)
      requires Busy(w) && FillingAt(w, raw) && raw + data != [] && work == null && model.work == []
      modifies this`stat, this`model, this`own, this`last, this`work
      modifies repr
      ensures done <==> Complete(raw + data)
      ensures done ==> Busy(null) && work == null && (model, r) == Finish(old(model), First(raw + data))
      ensures done ==> length == |First(raw + data)| && model.work == []
      ensures !done ==> Valid() && r == 0 && model == old(model).(work := raw + data)
      ensures own.lent == old(own).lent
    {
      hide List.Valid, Inv, Buffers, Complete, Sound, Finish, Filling, Holds, TsSectionParser.Tied;
      r := 0;
      WorkIsPlaced(own, w, model);
      NodesAreElems(w);
      Fill(w, raw, data);
      done, length := CheckSectionComplete(w, raw + data);
      if done {
        r := Judge(w, First(raw + data));
        FinishKeepsWork(old(model), First(raw + data));
      } else {
        KeepWorking(w, raw + data);
      }
    }

    /** put_exclude_section_start */
    method PutExcludeSectionStart(data: seq<byte>) returns (r: int)
      requires Valid()
      modifies this`stat, this`model, this`own, this`last, this`work
      modifies repr
      ensures Valid() && (model, r) == Continue(old(model), data)
      ensures own.lent == old(own).lent
    {
      hide List.Valid, Inv, Buffers, Complete, Sound, Finish, Filling, Holds, TsSectionParser.Tied;
      r := 0;
      if work == null {
        return;
      }
      ghost var raw := model.work;
      var w := TakeWork();
      var done, length;
      r, done, length := TakeIn(w, raw, data);
    }

    /** An unfinished section that another one cuts short is an error. */
    method AbandonWork(code: int) returns (r: int)
      requires Valid()
      modifies this`stat, this`model, this`own, this`work, repr
      ensures Busy(null) && work == null && (model, r) == Abandon(old(model), code) && model.work == []
      ensures own.lent == old(own).lent
    {
      hide List.Valid, Inv, TsSectionParser.FillingAt, Buffers, Filling, TsSectionParser.Tied;
      r := code;
      var w := TakeWork();
      if w != null {
        WorkIsPlaced(own, w, model);
        NodesAreElems(w);
        Cancel(w, 1);
        r := WARN_LENGTH_MISMATCH;
      }
    }

    /** put_include_section_start. An unfinished section is never empty, so the
        branch that would cancel an empty one is not taken. */
    method PutIncludeSectionStart(data: seq<byte>) returns (r: int)
      requires Valid() && data != []
      modifies this`stat, this`model, this`own, this`last, this`work, this`repr
      modifies repr
      ensures Valid() && (model, r) == Start(old(model), data)
      ensures own.lent == old(own).lent
      ensures fresh(repr - old(repr))
    {
      hide List.Valid, Inv, TsSectionParser.Tied, TsSectionParser.FillingAt, Start;
      NodesAreElems(work);
      StartCases(model, data);
      var pointer := data[0] as int;
      if 1 + pointer >= |data| {
        r := PutBroken();
        return;
      }
      r := 0;
      if pointer > 0 {
        r := PutExcludeSectionStart(data[1..1 + pointer]);
      }
      r := PutBehindPointer(data[1 + pointer..], r);
    }

    /** A pointer beyond the payload ends the section under way. */
    method PutBroken() returns (r: int)
      requires Valid()
      modifies this`stat, this`model, this`own, this`work, repr
      ensures Valid() && (model, r) == Abandon(old(model), 0)
      ensures own.lent == old(own).lent
    {
      hide List.Valid, Inv, TsSectionParser.Tied, TsSectionParser.FillingAt, Abandon;
      r := AbandonWork(0);
    }

    method PutBehindPointer(data: seq<byte>, code: int) returns (r: int)
      requires Valid() && data != []
      modifies this`stat, this`model, this`own, this`last, this`work, this`repr
      modifies repr
      ensures var (s, c) := Abandon(old(model), code);
        Valid() && (model, r) == Starts(s, data, c)
      ensures own.lent == old(own).lent
      ensures fresh(repr - old(repr))
    {
      hide List.Valid, Inv, TsSectionParser.FillingAt, Buffers, Filling, TsSectionParser.Tied, Starts, Abandon;
      NodesAreElems(work);
      r := AbandonWork(code);
      NodesAreElems(null);
      r := PutSections(data, r);
    }

    /** One section that starts in a payload, or its first part. */
    method PutSection(data: seq<byte>) returns (c: int, done: bool, length: nat)
      requires Busy(null) && work == null && model.work == [] && data != []
      modifies this`stat, this`model, this`own, this`last, this`work, this`repr
      modifies repr
      ensures done <==> Complete(data)
      ensures done ==> Busy(null) && work == null && model.work == [] && length == |First(data)|
      ensures done ==> (model, c) == Finish(old(model), First(data))
      ensures !done ==> Valid() && model == old(model).(work := data)
      ensures own.lent == old(own).lent
      ensures fresh(repr - old(repr))
    {
      hide List.Valid, Inv, TsSectionParser.Tied, TsSectionParser.FillingAt, Complete, First, Finish;
      NodesAreElems(null);
      var w := QueryWorkElem();
      NodesAreElems(w);
      assert [] + data == data;
      c, done, length := TakeIn(w, [], data);
    }

    /** The sections that start in a payload. */
    method PutSections(data: seq<byte>, code: int) returns (r: int)
      requires Busy(null) && work == null && model.work == [] && data != []
      modifies this`stat, this`model, this`own, this`last, this`work, this`repr
      modifies repr
      ensures Valid() && (model, r) == Starts(old(model), data, code)
      ensures own.lent == old(own).lent
      ensures fresh(repr - old(repr))
    {
      hide List.Valid, Inv, TsSectionParser.Tied, TsSectionParser.FillingAt, Complete, First, Finish, Starts;
      r := code;
      var p, more := 0, true;
      assert data[0..] == data;
      NodesAreElems(null);
      while more
        invariant p <= |data| && (more ==> p < |data|)
        invariant Busy(null) && work == null && model.work == [] && this !in repr
        invariant own.lent == old(own).lent
        invariant fresh(repr - old(repr))
        invariant Starts(old(model), data, code) == if more then Starts(model, data[p..], r) else (model, r)
        decreases |data| - p, more
      {
        StartsStep(model, data[p..], r);
        var c, done, length := PutSection(data[p..]);
        if !done {
          return 0;
        }
        if c == WARN_CRC_MISMATCH {
          r := c;
        }
        assert data[p..][length..] == data[p + length..];
        p := p + length;
        more := p < |data| && data[p] != 0xff;
        NodesAreElems(null);
      }
    }

    /** put_ts_section_parser. No section that the caller has is touched. */
    method Put(p: Packet) returns (r: int)
      requires Valid() && Historic()
      modifies this`pid, this`stat, this`model, this`own, this`last, this`work, this`repr, this`ops
      modifies repr
      ensures Valid() && (model, r) == SectionModel.Put(old(model), p)
      ensures Historic() && ops == old(ops) + [SectionTheorems.PutOp(p)]
      ensures own.lent == old(own).lent
      ensures fresh(repr - old(repr))
    {
      hide List.Valid, Inv, TsSectionParser.Tied, Filling, SectionModel.Put;
      ghost var m := model;
      NodesAreElems(work);
      r := PutPacket(p);
      SectionTheorems.RunOneMore(NEW_PARSER, ops, SectionTheorems.PutOp(p));
      SectionTheorems.RunOne(m, SectionTheorems.PutOp(p));
      assert delivered + [] == delivered;
      Record(SectionTheorems.PutOp(p));
    }

    ghost method Record(op: SectionTheorems.Op)
      requires Valid()
      modifies this`ops
      ensures Valid() && ops == old(ops) + [op]
    {
      hide List.Valid, Inv, Filling;
      ops := ops + [op];
    }

    method PutPacket(p: Packet) returns (r: int)
      requires Valid()
      modifies this`pid, this`stat, this`model, this`own, this`last, this`work, this`repr
      modifies repr
      ensures Valid() && (model, r) == SectionModel.Put(old(model), p)
      ensures own.lent == old(own).lent
      ensures fresh(repr - old(repr))
    {
      hide List.Valid, Inv, Buffers, Filling, Start, Continue;
      if p.payload == [] {
        return ERROR_INVALID_PARAM;
      }
      if pid >= 0 && pid != p.pid {
        return ERROR_INVALID_TS_PID;
      }
      ghost var m := model;
      pid := p.pid;
      model := model.(pid := p.pid);
      InvIgnoresStat(own, work, m, model);
      if p.start {
        r := PutIncludeSectionStart(p.payload);
      } else {
        r := PutExcludeSectionStart(p.payload);
      }
    }

    // ------------------------------------------------------- get and ret

    method TakeFromQueue() returns (w: Node?<Slot>)
      requires Tied() && forall e | e in own.buff :: e !in own.pool
      modifies this`own, buff, buff.nodes`prev, buff.nodes`next
      ensures Tied()
      ensures w == null <==> old(own).buff == []
      ensures w == null ==> own == old(own)
      ensures w != null ==> w == old(own).buff[0] && own == old(own).(buff := old(own).buff[1..])
    {
      hide List.Valid;
      assert forall i | 0 <= i < |pool.nodes| :: pool.nodes[i] !in buff.nodes;
      w := buff.GetHead();
      if w != null {
        own := own.(buff := own.buff[1..]);
      }
    }

    /** The section has been fetched and is the caller's. */
    ghost method Lend(e: Elem, raw: seq<byte>)
      requires Tied() && model.queue != []
      modifies this`model, this`own, this`delivered
      ensures Tied() && own == old(own).(lent := old(own).lent[e := raw])
      ensures model == old(model).(queue := old(model).queue[1..]) && delivered == old(delivered) + [raw]
    {
      hide List.Valid;
      own := own.(lent := own.lent[e := raw]);
      model := model.(queue := model.queue[1..]);
      delivered := delivered + [raw];
    }

    /** get_ts_section_parser: the oldest section in the queue. It stays the
        caller's until given back; its element is in the pool, but not free. */
    method Get() returns (code: int, sect: Option<Section>, ghost e: Node?<Slot>)
      requires Valid() && Historic()
      modifies this`model, this`own, this`delivered, this`ops, repr
      ensures Valid() && Historic() && ops == old(ops) + [SectionTheorems.GetOp]
      ensures old(model).queue == [] ==>
        && code == ERROR_NO_SECTION_DATA && sect == None
        && model == old(model) && own == old(own) && delivered == old(delivered)
      ensures old(model).queue != [] ==>
        && code == 0 && sect.Some? && Lent(e, sect.value)
        && Holds(sect.value, sect.value.raw[..], old(model).queue[0])
        && own == Fetched(old(own), old(model).queue[0]) && e == old(own).buff[0]
        && (model, Some(old(model).queue[0])) == SectionModel.Get(old(model))
        && delivered == old(delivered) + [old(model).queue[0]]
    {
      hide List.Valid, Inv, TsSectionParser.Tied, Filling, Holds, Buffers;
      ghost var m := model;
      NodesAreElems(work);
      code, sect, e := GetSection();
      SectionTheorems.RunOneMore(NEW_PARSER, ops, SectionTheorems.GetOp);
      SectionTheorems.RunOne(m, SectionTheorems.GetOp);
      assert delivered + [] == delivered;
      Record(SectionTheorems.GetOp);
    }

    method GetSection() returns (code: int, sect: Option<Section>, ghost e: Node?<Slot>)
      requires Valid()
      modifies this`model, this`own, this`delivered, repr
      ensures Valid()
      ensures old(model).queue == [] ==>
        && code == ERROR_NO_SECTION_DATA && sect == None
        && model == old(model) && own == old(own) && delivered == old(delivered)
      ensures old(model).queue != [] ==>
        && code == 0 && sect.Some? && Lent(e, sect.value)
        && Holds(sect.value, sect.value.raw[..], old(model).queue[0])
        && own == Fetched(old(own), old(model).queue[0]) && e == old(own).buff[0]
        && (model, Some(old(model).queue[0])) == SectionModel.Get(old(model))
        && delivered == old(delivered) + [old(model).queue[0]]
    {
      hide List.Valid, Inv, Buffers, Filling;
      NodesAreElems(work);
      QueueIsBuff(own, work, model);
      ghost var m := model;
      if own.buff != [] {
        FetchedKeeps(own, work, m);
      }
      var w := TakeFromQueue();
      e := w;
      if w == null {
        return ERROR_NO_SECTION_DATA, None, null;
      }
      code, sect := 0, Some(w.value.sect);
      PutInPool(w);
      Lend(w, m.queue[0]);
    }

    /** The caller has this section, which was in element e. */
    ghost predicate Lent(e: Node?<Slot>, sect: Section)
      reads this
    {
      e != null && e in own.lent && e in own.slots && own.slots[e].sect == sect
    }

    /** ret_ts_section_parser, for any section: the element with its data pointer,
        searched for from the end of the pool, loses a count if it has one. Only
        a return of the last accepted section that the caller does not have breaks
        the parser. */
    method Ret(sect: Section) returns (code: int)
      requires Valid()
      modifies this`own, repr
      ensures Tied() && code == 0 && own == TakenBack(old(own), sect)
      ensures !Overdrawn(old(own), sect) ==> Valid()
    {
      hide List.Valid, Inv, Filling, Found, TsSectionParser.Tied;
      NodesAreElems(work);
      TakenBackKeeps(own, work, model, sect);
      var w := FindInPool(sect);
      if w != null && w.value.ref > 0 {
        LoseCount(w);
      }
      code := 0;
    }

    method LoseCount(w: Elem)
      requires Tied() && w in own.slots
      modifies this`own, w`value
      ensures Tied() && own == Returned(old(own), w)
    {
      hide List.Valid;
      SetRef(w, w.value.ref - 1);
      own := own.(lent := own.lent - {w});
    }

    /** get_count_ts_section_parser */
    method GetCount() returns (n: int)
      requires Valid()
      ensures n == |model.queue|
    {
      hide Buffers, Counted;
      n := buff.count;
    }

    /** get_stat_ts_section_parser */
    method GetStat() returns (s: Stat)
      requires Valid()
      ensures s == model.stat
    {
      hide List.Valid, Inv;
      s := stat;
    }

    /** reset_ts_section_parser: every element is freed, and the sections that
        the caller still has with them. */
    method Reset()
      requires Valid()
      modifies this, repr
      ensures Valid() && Historic() && model == NEW_PARSER && delivered == [] && own == EMPTY && ops == []
      ensures repr == {pool, buff}
    {
      hide List.Valid, Inv, TsSectionParser.Tied, TsSectionParser.FillingAt, TsSectionParser.Historic;
      NodesAreElems(work);
      ClearLists();
      Restart();
    }

    method Restart()
      requires pool != buff && pool.Valid() && buff.Valid() && pool.nodes == [] && buff.nodes == []
      modifies this
      ensures Valid() && Historic() && model == NEW_PARSER && delivered == [] && own == EMPTY && ops == []
      ensures repr == {pool, buff}
    {
      hide List.Valid, Inv, Filling, SectionTheorems.Run, TsSectionParser.Tied;
      SectionTheorems.RunNothing(NEW_PARSER);
      EmptyIsFine();
      StartOver();
    }

    method StartOver()
      requires pool != buff && pool.Valid() && buff.Valid() && pool.nodes == [] && buff.nodes == []
      modifies this
      ensures Tied() && work == null
      ensures model == NEW_PARSER && delivered == [] && own == EMPTY && ops == [] && repr == {pool, buff}
    {
      hide List.Valid;
      pid, work, last, stat := -1, null, null, Stat(0, 0, 0);
      model, delivered, own, ops, repr := NEW_PARSER, [], EMPTY, [], {pool, buff};
    }

    /** clear_ts_section_list, for both lists. */
    method ClearLists()
      requires Tied()
      modifies pool, buff
      ensures pool != buff && pool.Valid() && buff.Valid() && pool.nodes == [] && buff.nodes == []
    {
      hide List.Valid;
      ghost var freed := pool.Clear();
      freed := buff.Clear();
    }

    /** What a run of calls on a parser comes to: see RunDelivers. */
    lemma Delivers()
      requires Historic()
      ensures var pieces := SectionTheorems.CutAll([], SectionTheorems.Relevant(-1, SectionTheorems.Packets(ops))).0;
        delivered + model.queue == SectionTheorems.Collapse(SectionTheorems.Good(pieces))
    {
      SectionTheorems.RunDelivers(ops);
    }

    /** The search of ret_ts_section_parser, from the tail of the pool. */
    method FindInPool(sect: Section) returns (w: Node?<Slot>)
      requires Valid()
      ensures w == Found(own, own.pool, sect) && (w != null ==> w in own.slots && w.value == own.slots[w])
    {
      hide Inv, Filling;
      ghost var k := |own.pool|;
      assert own.pool[..k] == own.pool;
      w := pool.tail;
      while w != null
        invariant 0 <= k <= |own.pool| && w == if k > 0 then own.pool[k - 1] else null
        invariant Found(own, own.pool, sect) == Found(own, own.pool[..k], sect)
        decreases k
      {
        assert w == pool.nodes[k - 1] && w in own.pool;
        PoolIsSlots(own, work, model, w);
        assert own.pool[..k][..k - 1] == own.pool[..k - 1];
        if SamePointer(w.value.sect, sect) {
          return;
        }
        w, k := w.prev, k - 1;
      }
    }
  }

  lemma EmptyIsFine()
    ensures Inv(EMPTY, null, NEW_PARSER)
  {
  }

  lemma QueueIsBuff(o: Own, hand: Node?<Slot>, m: Parser)
    requires Inv(o, hand, m)
    ensures |m.queue| == |o.buff|
    ensures forall e | e in o.buff :: e !in o.pool
    ensures o.buff != [] ==>
      && HeldBy(o, o.buff[0], m.queue[0]) && o.slots[o.buff[0]].sect.raw in o.mem
      && Apart(o.(buff := o.buff[1..]), o.buff[0])
  {
    if o.buff != [] {
      assert o.buff == [o.buff[0]] + o.buff[1..];
      assert o.buff[0] in o.buff && o.buff[0] !in o.buff[1..];
    }
  }

  lemma PoolIsSlots(o: Own, hand: Node?<Slot>, m: Parser, e: Elem)
    requires Inv(o, hand, m) && e in o.pool
    ensures e in o.slots
  {
  }

  lemma StartCases(s: Parser, data: seq<byte>)
    requires data != []
    ensures var n := data[0] as int;
      Start(s, data) ==
        if 1 + n >= |data| then Abandon(s, 0)
        else
          var (s1, c1) := if n > 0 then Continue(s, data[1..1 + n]) else (s, 0);
          var (s2, c2) := Abandon(s1, c1);
          Starts(s2, data[1 + n..], c2)
  {
    hide Starts, Continue, Abandon;
  }

  /** One turn of the loop over the sections of a payload. */
  lemma StartsStep(s: Parser, data: seq<byte>, code: int)
    ensures !Complete(data) ==> Starts(s, data, code) == (s.(work := data), 0)
    ensures Complete(data) ==>
      var (s', c) := Finish(s, First(data));
      var code' := if c == WARN_CRC_MISMATCH then c else code;
      var n := |First(data)|;
      && 3 <= n <= |data|
      && Starts(s, data, code) ==
         if n < |data| && data[n] != 0xff then Starts(s', data[n..], code') else (s', code')
  {
    hide Complete, Finish;
  }

  lemma FinishKeepsWork(s: Parser, raw: seq<byte>)
    requires |raw| >= 3
    ensures Finish(s, raw).0.work == s.work
  {
  }

  lemma WorkIsPlaced(o: Own, w: Elem, m: Parser)
    requires Inv(o, w, m)
    ensures w in o.slots
  {
  }

  lemma BuffersOf(o: Own, w: Elem, m: Parser)
    requires Inv(o, w, m)
    ensures Buffers(o) && w in o.slots && o.slots[w].sect.raw in o.mem
  {
  }

  lemma FreeIsPlaced(o: Own, k: nat, m: Parser)
    requires Inv(o, null, m) && k < |o.pool|
    ensures Distinct(o.pool) && o.pool[k] in o.slots && forall f | f in o.pool :: f !in o.buff
  {
    assert o.pool[k] in o.pool;
  }

  lemma BlankIsFilling(o: Own, e: Elem, m: Parser)
    requires Inv(o, null, m) && e in o.slots
    ensures o.slots[e].sect.raw in o.mem
    ensures Filling(Blank(o.slots[e]).sect, o.mem[o.slots[e].sect.raw], [])
  {
  }

  lemma HandIsPlaced(o: Own, w: Elem, m: Parser)
    requires Inv(o, w, m)
    ensures Apart(o, w) && w in o.slots && (o.last != null ==> o.last in o.slots && o.last != w)
  {
  }

  lemma InvIgnoresStat(o: Own, hand: Node?<Slot>, m: Parser, m': Parser)
    requires Inv(o, hand, m) && m'.queue == m.queue && m'.last == m.last
    ensures Inv(o, hand, m')
  {
  }
}
