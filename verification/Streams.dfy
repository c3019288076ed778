// What the packet loop does to a stream: which packets come out and where they
// came from, what is counted, and which packets are restored.

module Streams {
  import opened Bytes
  import opened SectionModel
  import opened PidGraph
  import opened PidInvariant
  import opened Core
  import opened Framing
  import opened Tallies
  import Multi2

  // ------------------------------------------------------------ packet headers

  /** The same packet up to its payload and its scrambling control bits. */
  predicate SameHead(p: Packet188, q: Packet188) {
    && q[0] == p[0] && q[1] == p[1] && q[2] == p[2] && q[3] & 0x3f == p[3] & 0x3f
    && (PayloadAt(p) <= PACKET ==> q[4..PayloadAt(p)] == p[4..PayloadAt(p)])
  }

  lemma LowBits(b: byte)
    ensures (b & 0x3f) as int == b as int % 64
    ensures (b & 0x3f) & 0x3f == b & 0x3f
  {
  }

  lemma UnmarkedHeader(b: byte)
    ensures (b & 0x3f) as int / 32 % 2 == b as int / 32 % 2
    ensures (b & 0x3f) as int / 16 % 2 == b as int / 16 % 2
    ensures (b & 0x3f) as int / 64 == 0
  {
    hide *;
    LowBits(b);
    Mod64(b as int);
  }

  lemma Mod64(x: int)
    requires 0 <= x
    ensures x % 64 / 32 % 2 == x / 32 % 2 && x % 64 / 16 % 2 == x / 16 % 2 && x % 64 / 64 == 0
  {
    MoreQuarters(x / 64, x % 64);
  }

  lemma MoreQuarters(a: int, r: int)
    requires 0 <= a && 0 <= r < 64
    ensures (64 * a + r) / 32 % 2 == r / 32 % 2 && (64 * a + r) / 16 % 2 == r / 16 % 2
  {
    EvenMore(a, r / 32);
    EvenMore(2 * a, r / 16);
    assert (64 * a + r) / 32 == 2 * a + r / 32;
    assert (64 * a + r) / 16 == 2 * (2 * a) + r / 16;
  }

  lemma EvenMore(a: int, y: int)
    ensures (2 * a + y) % 2 == y % 2
  {
  }

  lemma SameFields(p: Packet188, q: Packet188)
    requires q[1] == p[1] && q[2] == p[2] && HasAdaptation(q) == HasAdaptation(p) && HasPayload(q) == HasPayload(p)
    requires HasAdaptation(p) ==> q[4] == p[4]
    ensures PidOf(q) == PidOf(p) && Transport(q) == Transport(p) && UnitStart(q) == UnitStart(p)
    ensures PayloadAt(q) == PayloadAt(p) && BrokenPacket(q) == BrokenPacket(p)
  {
    hide HasAdaptation, HasPayload;
  }

  lemma AdaptationIsInside(p: Packet188)
    ensures PayloadAt(p) >= if HasAdaptation(p) then 5 else 4
  {
    hide HasAdaptation;
  }

  lemma SameFlags(p: Packet188, q: Packet188)
    requires q[3] & 0x3f == p[3] & 0x3f
    ensures HasPayload(q) == HasPayload(p) && HasAdaptation(q) == HasAdaptation(p)
  {
    UnmarkedHeader(p[3]);
    UnmarkedHeader(q[3]);
  }

  /** Header fields but for the scrambling bits depend on nothing else. */
  lemma SameHeadSameFields(p: Packet188, q: Packet188)
    requires SameHead(p, q) && !BrokenPacket(p)
    ensures PidOf(q) == PidOf(p) && Transport(q) == Transport(p) && UnitStart(q) == UnitStart(p)
    ensures HasPayload(q) == HasPayload(p) && HasAdaptation(q) == HasAdaptation(p)
    ensures PayloadAt(q) == PayloadAt(p) && !BrokenPacket(q)
  {
    hide HasPayload, HasAdaptation, PayloadAt, PidOf, Transport, UnitStart;
    SameFlags(p, q);
    AdaptationIsInside(p);
    if HasAdaptation(p) {
      assert q[4] == q[4..PayloadAt(p)][0] == p[4..PayloadAt(p)][0] == p[4];
    }
    SameFields(p, q);
  }

  /** The packet still carries a payload that is marked as scrambled. */
  predicate StillScrambled(q: Packet188) {
    Scrambling(q) != 0 && HasPayload(q)
  }

  lemma DescrambleKeepsHead(s: State, p: Packet188)
    requires !BrokenPacket(p)
    ensures var (s', q, r) := Descramble(s, p);
      && SameHead(p, q)
      && (r >= 0 ==> s' == Counted(s, PidOf(p), One(!StillScrambled(q)), One(StillScrambled(q))))
      && (r < 0 ==> s' == s && q == p && r == ERROR_DECRYPT_FAILURE)
  {
    hide Multi2.CbcDecrypt, Counted, HasPayload, HasAdaptation, PayloadAt, PidOf, Scrambling, SameHead, Unmarked;
    SelfSameHead(p);
    SoundPacket(p);
    var at := PayloadAt(p);
    var dec := Chosen(s.links, PidOf(p));
    if Scrambling(p) != 0 && HasPayload(p) && dec.Some? && s.links.decs[dec.value].m2.Some? {
      var k := s.links.decs[dec.value].m2.value;
      DecryptedHead(p, k.Decrypted(Scrambling(p), p[at..]));
    }
  }

  lemma SelfSameHead(p: Packet188)
    ensures SameHead(p, p)
  {
  }

  lemma SoundPacket(p: Packet188)
    requires !BrokenPacket(p)
    ensures PayloadAt(p) <= PACKET && (HasPayload(p) ==> PayloadAt(p) < PACKET)
  {
    hide HasPayload, PayloadAt;
  }

  lemma DecryptedHead(p: Packet188, payload: seq<byte>)
    requires !BrokenPacket(p) && HasPayload(p) && PayloadAt(p) + |payload| == 188
    ensures SameHead(p, Unmarked(p[..PayloadAt(p)] + payload)) && !StillScrambled(Unmarked(p[..PayloadAt(p)] + payload))
  {
    hide HasPayload, HasAdaptation, PayloadAt;
    AdaptationIsInside(p);
    LowBits(p[3]);
    UnmarkedHeader(p[3]);
    var q: Packet188 := p[..PayloadAt(p)] + payload;
    assert q[3] == p[3];
    assert Unmarked(q)[4..PayloadAt(p)] == p[4..PayloadAt(p)];
  }

  // ------------------------------------------------------------ what is counted

  ghost predicate SameTallies(l: Links, l': Links) {
    forall p: Pid :: l'.pm[p].normal == l.pm[p].normal && l'.pm[p].undecrypted == l.pm[p].undecrypted
  }

  lemma AppliedTallies(s: State, t: Table)
    requires !t.PatTable?
    ensures SameTallies(s.links, Applied(s, t).links)
  {
    hide Apply;
    ApplyBeside(s.links, s.programs, t);
    var l' := Applied(s, t).links;
    forall p: Pid ensures l'.pm[p].normal == s.links.pm[p].normal && l'.pm[p].undecrypted == s.links.pm[p].undecrypted {
      assert EntryKept(s.links.pm[p], l'.pm[p]);
    }
  }

  lemma EcmTallies(cfg: Config, s: State, id: nat, put: Packet)
    requires id in s.links.decs
    ensures EcmPacket(cfg, s, id, put).0.links.pm == s.links.pm
  {
    hide Put, Tables.Body;
  }

  lemma PmtTallies(cfg: Config, s: State, i: nat, put: Packet)
    requires i < |s.programs|
    ensures SameTallies(s.links, PmtPacket(cfg, s, i, put).0.links)
  {
    hide Put, Tables.ReadPmt, Applied;
    var pmt := Put(s.programs[i].pmt, put).0;
    if pmt.queue != [] {
      var (pmt', got) := Get(pmt);
      var s2 := s.(programs := s.programs[i := s.programs[i].(pmt := pmt')]);
      if |got.value| >= 3 {
        var read := Tables.ReadPmt(got.value, cfg.caSystemId);
        if read.PmtRead? {
          AppliedTallies(s2, PmtTable(i, read.major, read.ess));
        }
      }
    }
  }

  lemma CatTallies(cfg: Config, s: State, put: Packet)
    ensures SameTallies(s.links, CatPacket(cfg, s, put).0.links)
  {
    hide Put, Tables.FindCa, Applied, Tables.Body;
    var cat := Put(ParserOf(s.cat), put).0;
    if cat.queue != [] {
      var (cat', got) := Get(cat);
      if |got.value| >= 3 {
        AppliedTallies(s.(cat := Some(cat')), CatTable(Tables.FindCa(Tables.Body(got.value), cfg.caSystemId)));
      }
    }
  }

  lemma {:induction false} EmmForIdsTallies(cfg: Config, s: State, element: seq<byte>, ids: seq<int>)
    requires |element| >= 6
    ensures EmmForIds(cfg, s, element, ids).0.links.pm == s.links.pm
    decreases |ids|
  {
    if ids != [] {
      var n := cfg.emm(|s.emmCalls|, element);
      var s1 := s.(emmCalls := s.emmCalls + [EmmCall(element, n)]);
      EmmForIdsTallies(cfg, s, element, ids[1..]);
      EmmForIdsTallies(cfg, s1.(links := UnlockAll(s1.links)), element, ids[1..]);
    }
  }

  lemma {:induction false} EmmElementsTallies(cfg: Config, s: State, data: seq<byte>)
    ensures EmmElements(cfg, s, data).0.links.pm == s.links.pm
    decreases |data|
  {
    hide EmmForIds;
    if |data| >= 13 && data[6] as int + 7 <= |data| {
      var len := data[6] as int + 7;
      EmmForIdsTallies(cfg, s, data[..len], cfg.casIds);
      EmmElementsTallies(cfg, EmmForIds(cfg, s, data[..len], cfg.casIds).0, data[len..]);
    }
  }

  lemma {:induction false} ProcEmmTallies(cfg: Config, s: State, emm: Parser)
    ensures ProcEmm(cfg, s, emm).0.links.pm == s.links.pm
    decreases |emm.queue|
  {
    hide EmmElements, Tables.Body;
    if emm.queue != [] {
      var (emm', got) := Get(emm);
      ProcEmmTallies(cfg, s, emm');
      if |got.value| >= 3 {
        EmmElementsTallies(cfg, s, Tables.Body(got.value));
        ProcEmmTallies(cfg, EmmElements(cfg, s, Tables.Body(got.value)).0, emm');
      }
    }
  }

  // The code for a decryption error is given to nothing else.

  lemma {:induction false} EmmForIdsCode(cfg: Config, s: State, element: seq<byte>, ids: seq<int>)
    requires |element| >= 6
    ensures EmmForIds(cfg, s, element, ids).1 in {0, ERROR_EMM_PROC_FAILURE}
    decreases |ids|
  {
    if ids != [] {
      var n := cfg.emm(|s.emmCalls|, element);
      var s1 := s.(emmCalls := s.emmCalls + [EmmCall(element, n)]);
      EmmForIdsCode(cfg, s, element, ids[1..]);
      EmmForIdsCode(cfg, s1.(links := UnlockAll(s1.links)), element, ids[1..]);
    }
  }

  lemma {:induction false} EmmElementsCode(cfg: Config, s: State, data: seq<byte>)
    ensures EmmElements(cfg, s, data).1 in {0, ERROR_EMM_PROC_FAILURE}
    decreases |data|
  {
    hide EmmForIds;
    if |data| >= 13 && data[6] as int + 7 <= |data| {
      var len := data[6] as int + 7;
      EmmForIdsCode(cfg, s, data[..len], cfg.casIds);
      EmmElementsCode(cfg, EmmForIds(cfg, s, data[..len], cfg.casIds).0, data[len..]);
    }
  }

  lemma {:induction false} ProcEmmCode(cfg: Config, s: State, emm: Parser)
    ensures ProcEmm(cfg, s, emm).2 != ERROR_DECRYPT_FAILURE
    decreases |emm.queue|
  {
    hide EmmElements, Tables.Body;
    if emm.queue != [] {
      var (emm', got) := Get(emm);
      ProcEmmCode(cfg, s, emm');
      if |got.value| >= 3 {
        EmmElementsCode(cfg, s, Tables.Body(got.value));
        ProcEmmCode(cfg, EmmElements(cfg, s, Tables.Body(got.value)).0, emm');
      }
    }
  }

  lemma EcmCode(cfg: Config, s: State, id: nat, put: Packet)
    requires id in s.links.decs
    ensures EcmPacket(cfg, s, id, put).1 != Some(ERROR_DECRYPT_FAILURE)
  {
    hide Put, Tables.Body;
  }

  lemma DispatchCode(cfg: Config, s: State, q: Packet188)
    ensures Given(Dispatch(cfg, s, q).1) != ERROR_DECRYPT_FAILURE
  {
    hide Put, EcmPacket, ProcEmm, Applied, Tables.ReadPat, Tables.ReadPmt, Tables.FindCa, Tables.PatTooShort, Tables.Body;
    var pid, e := PidOf(q), s.links.pm[PidOf(q)];
    var put := PutOf(q);
    if e.kind == Ecm && e.target.Decryptor? && e.target.id in s.links.decs {
      EcmCode(cfg, s, e.target.id, put);
    } else if e.kind == Emm {
      var emm := Put(ParserOf(s.emm), put).0;
      ProcEmmCode(cfg, s.(emm := Some(emm)), emm);
    }
  }

  /** Only a fetched PAT section touches the counters. */
  lemma DispatchTallies(cfg: Config, s: State, q: Packet188)
    ensures var (s', r, leave) := Dispatch(cfg, s, q);
      && (!leave || Bad(r) ==> SameTallies(s.links, s'.links))
      && (leave ==> PidOf(q) == 0)
  {
    hide Put, EcmPacket, PmtPacket, CatPacket, ProcEmm, Applied, Tables.ReadPat, Tables.PatTooShort, Tables.Body;
    var pid, e := PidOf(q), s.links.pm[PidOf(q)];
    var put := PutOf(q);
    if e.kind == Ecm && e.target.Decryptor? && e.target.id in s.links.decs {
      EcmTallies(cfg, s, e.target.id, put);
    } else if e.kind == Pmt && e.target.ProgramAt? && e.target.index < |s.programs| {
      PmtTallies(cfg, s, e.target.index, put);
    } else if e.kind == Emm {
      var emm := Put(ParserOf(s.emm), put).0;
      ProcEmmTallies(cfg, s.(emm := Some(emm)), emm);
    } else if pid == 1 {
      CatTallies(cfg, s, put);
    }
  }

  /** A null packet that stripping takes out of the stream. */
  predicate Stripped(cfg: Config, p: Packet188) {
    Transport(p) == 0 && PidOf(p) == 0x1fff && cfg.strip
  }

  /** The packet counts for this PID, as a clear one or as one that is still
      scrambled. */
  predicate Hit(q: Packet188, pid: Pid, marked: bool) {
    Transport(q) == 0 && PidOf(q) == pid && StillScrambled(q) == marked
  }

  /** The counters went up by one where the packet hits, and nowhere else. */
  ghost predicate TalliedOnce(s: State, s': State, q: Packet188) {
    forall pid: Pid ::
      && s'.links.pm[pid].normal == s.links.pm[pid].normal + One(Hit(q, pid, false))
      && s'.links.pm[pid].undecrypted == s.links.pm[pid].undecrypted + One(Hit(q, pid, true))
  }

  /** What the loop does with one packet, as far as the stream is concerned. */
  lemma HandleFacts(cfg: Config, s: State, p: Packet188)
    ensures match Handle(cfg, s, p)
      case Skip => BrokenPacket(p) && Transport(p) == 0 && !Stripped(cfg, p)
      case Next(s', None, _) => Stripped(cfg, p) && s' == s
      case Next(s', Some(q), _) =>
        && !Stripped(cfg, p) && SameHead(p, q) && Transport(q) == Transport(p) && PidOf(q) == PidOf(p)
        && TalliedOnce(s, s', q)
      case Stop(s', None, held, code) => !Stripped(cfg, p) && s' == s && held == p && code == ERROR_DECRYPT_FAILURE
      case Stop(s', Some(q), held, code) =>
        && !Stripped(cfg, p) && SameHead(p, q) && Transport(q) == Transport(p) && PidOf(q) == PidOf(p) && held == q
        && (code < 0 ==> TalliedOnce(s, s', q)) && (code >= 0 ==> PidOf(p) == 0 && Transport(p) == 0)
        && code != ERROR_DECRYPT_FAILURE
  {
    hide Descramble, Dispatch, BrokenPacket, PidOf, Transport, StillScrambled;
    if Transport(p) != 0 || Stripped(cfg, p) || BrokenPacket(p) {
      return;
    }
    DescrambleKeepsHead(s, p);
    var (s1, q, r) := Descramble(s, p);
    SameHeadSameFields(p, q);
    DispatchTallies(cfg, s1, q);
    DispatchCode(cfg, s1, q);
  }

  /** How often the packets appended hit. */
  function Tally(out: seq<Emitted>, pid: Pid, marked: bool): nat {
    if out == [] then 0 else One(Hit(out[0].packet, pid, marked)) + Tally(out[1..], pid, marked)
  }

  /** Conservation: however a run of the loop ends, short of a PAT that takes
      effect, the counters of every PID went up by the number of its error-free
      packets in the output; and those counted as undecrypted are exactly those
      that come out scrambled. */
  lemma {:induction false} PacketsAreCounted(cfg: Config, unit: nat, s: State, buf: seq<byte>, at: nat, pid: Pid)
    requires 188 <= unit
    ensures var r := Scan(cfg, unit, s, buf, at);
      r.stop.None? || r.stop.value < 0 ==>
        && r.state.links.pm[pid].normal == s.links.pm[pid].normal + Tally(r.out, pid, false)
        && r.state.links.pm[pid].undecrypted == s.links.pm[pid].undecrypted + Tally(r.out, pid, true)
    decreases |buf|
  {
    hide Scan, TurnOf, Hit;
    ScanUnfolds(cfg, unit, s, buf, at);
    var t := TurnOf(cfg, unit, s, buf);
    TurnTallies(cfg, unit, s, buf);
    if t.Go? {
      PacketsAreCounted(cfg, unit, t.state, buf[t.past..], at + t.past, pid);
      TallyEmit(at + t.skip, t.out, Scan(cfg, unit, t.state, buf[t.past..], at + t.past).out, pid);
    } else if t.Leave? {
      TallyEmit(at + t.skip, t.out, [], pid);
      assert Emit(at + t.skip, t.out) + [] == Emit(at + t.skip, t.out);
    }
  }

  lemma TallyEmit(at: nat, out: Option<Packet188>, rest: seq<Emitted>, pid: Pid)
    ensures forall marked ::
      Tally(Emit(at, out) + rest, pid, marked) == One(out.Some? && Hit(out.value, pid, marked)) + Tally(rest, pid, marked)
  {
    hide Hit;
    assert out.Some? ==> (Emit(at, out) + rest)[1..] == rest;
    assert out.None? ==> Emit(at, out) + rest == rest;
  }

  lemma TurnTallies(cfg: Config, unit: nat, s: State, buf: seq<byte>)
    requires 188 <= unit
    ensures match TurnOf(cfg, unit, s, buf)
      case Halt => true
      case Go(s', _, None, _, _) => s' == s
      case Go(s', _, Some(q), _, _) => TalliedOnce(s, s', q)
      case Leave(s', _, None, _, _) => s' == s
      case Leave(s', _, Some(q), _, code) => code < 0 ==> TalliedOnce(s, s', q)
  {
    hide Handle, Cursor, BrokenPacket, PidOf, Transport, StillScrambled, SameHead, TalliedOnce;
    if !TurnOf(cfg, unit, s, buf).Halt? {
      var q := Cursor(buf, unit).value;
      HandleFacts(cfg, s, buf[q..q + 188]);
    }
  }

  // --------------------------------------------------------- where it comes from

  /** An appended packet comes from a place in the buffer that starts with a
      sync byte; its header and adaptation field are those found there. */
  predicate From(e: Emitted, buf: seq<byte>, at: nat) {
    && at <= e.at && e.at - at + 188 <= |buf|
    && SameHead(buf[e.at - at..e.at - at + 188], e.packet) && e.packet[0] == SYNC
  }

  /** Strictly increasing places, a unit or more apart. */
  ghost predicate Spaced(out: seq<Emitted>, unit: nat, from: nat, to: nat) {
    && (forall i | 0 <= i < |out| :: from <= out[i].at && out[i].at + unit <= to)
    && (forall i, j | 0 <= i < j < |out| :: out[i].at + unit <= out[j].at)
  }

  lemma TurnShape(cfg: Config, unit: nat, s: State, buf: seq<byte>, at: nat)
    requires 188 <= unit
    ensures var t := TurnOf(cfg, unit, s, buf);
      && (!t.Halt? ==> t.skip + unit < |buf|)
      && (!t.Halt? && t.out.Some? ==> From(Emitted(at + t.skip, t.out.value), buf, at) && !Stripped(cfg, t.out.value))
      && (t.Go? && t.out.Some? ==> t.past == t.skip + unit)
      && (t.Leave? ==> t.rest[188..] == buf[t.skip + 188..] && (t.out.None? <==> t.code == ERROR_DECRYPT_FAILURE))
  {
    hide Handle, Resync, BrokenPacket, PidOf, Transport, StillScrambled, TalliedOnce;
    if !TurnOf(cfg, unit, s, buf).Halt? {
      var q := Cursor(buf, unit).value;
      HandleFacts(cfg, s, buf[q..q + 188]);
    }
  }

  lemma FromFurther(e: Emitted, buf: seq<byte>, at: nat, past: nat)
    requires past <= |buf| && From(e, buf[past..], at + past)
    ensures From(e, buf, at)
  {
    hide SameHead;
    var k := e.at - at - past;
    assert buf[past..][k..k + 188] == buf[e.at - at..e.at - at + 188];
  }

  lemma SpacedMore(at: nat, skip: nat, past: nat, out: Option<Packet188>, rest: seq<Emitted>, unit: nat, to: nat)
    requires Spaced(rest, unit, at + past, to) && skip < past
    requires out.Some? ==> skip + unit <= past && at + skip + unit <= to
    ensures Spaced(Emit(at + skip, out) + rest, unit, at, to)
  {
  }

  /** The bytes kept are the end of those given, apart from a packet that is
      kept as it was left. */
  predicate Kept(r: Scanned, buf: seq<byte>) {
    && |r.rest| <= |buf|
    && (r.stop.None? ==> r.rest == buf[|buf| - |r.rest|..])
    && (r.stop.Some? ==> |r.rest| >= 188 && r.rest[188..] == buf[|buf| - |r.rest| + 188..])
  }

  lemma KeptFurther(r: Scanned, buf: seq<byte>, past: nat)
    requires past <= |buf| && Kept(r, buf[past..])
    ensures Kept(r, buf)
  {
  }

  function End(r: Scanned, buf: seq<byte>, at: nat): nat
    requires |r.rest| <= |buf|
  {
    if r.stop.None? || r.stop.value == ERROR_DECRYPT_FAILURE then at + |buf| - |r.rest| else at + |buf|
  }

  /** The output of one call: whole packets from increasing places in what was
      consumed, each with a sync byte and the header it had; with stripping on,
      no error-free null packet. */
  lemma {:induction false} OutputShape(cfg: Config, unit: nat, s: State, buf: seq<byte>, at: nat)
    requires 188 <= unit
    ensures var r := Scan(cfg, unit, s, buf, at);
      && Spaced(r.out, unit, at, End(r, buf, at)) && Kept(r, buf)
      && forall e | e in r.out :: From(e, buf, at) && !Stripped(cfg, e.packet)
    decreases |buf|
  {
    hide Scan, TurnOf, From, Stripped, Spaced, Kept;
    ScanUnfolds(cfg, unit, s, buf, at);
    var t, r := TurnOf(cfg, unit, s, buf), Scan(cfg, unit, s, buf, at);
    TurnShape(cfg, unit, s, buf, at);
    if t.Halt? {
      NothingSpaced(unit, at, at);
      AllKept(r, buf);
    } else if t.Go? {
      OutputShape(cfg, unit, t.state, buf[t.past..], at + t.past);
      var r' := Scan(cfg, unit, t.state, buf[t.past..], at + t.past);
      SpacedMore(at, t.skip, t.past, t.out, r'.out, unit, End(r', buf[t.past..], at + t.past));
      KeptFurther(r', buf, t.past);
      SameKept(r', r, buf);
      forall e | e in r'.out ensures From(e, buf, at) {
        FromFurther(e, buf, at, t.past);
      }
    } else {
      var to := End(r, buf, at);
      NothingSpaced(unit, at + t.skip + unit, to);
      SpacedMore(at, t.skip, t.skip + unit, t.out, [], unit, to);
      assert Emit(at + t.skip, t.out) + [] == Emit(at + t.skip, t.out);
      LeftKept(r, buf, t.skip);
    }
  }

  lemma NothingSpaced(unit: nat, from: nat, to: nat)
    ensures Spaced([], unit, from, to)
  {
  }

  lemma AllKept(r: Scanned, buf: seq<byte>)
    requires r.stop.None? && r.rest == buf
    ensures Kept(r, buf)
  {
  }

  lemma SameKept(r: Scanned, r': Scanned, buf: seq<byte>)
    requires Kept(r, buf) && r'.rest == r.rest && r'.stop == r.stop
    ensures Kept(r', buf)
  {
  }

  lemma LeftKept(r: Scanned, buf: seq<byte>, skip: nat)
    requires r.stop.Some? && skip + 188 <= |buf| && |r.rest| == |buf| - skip && r.rest[188..] == buf[skip + 188..]
    ensures Kept(r, buf)
  {
  }

  // ------------------------------------------------------------ nothing is lost

  /** A sync byte at every unit, and no broken packet before the last unit. */
  predicate InStep(buf: seq<byte>, unit: nat)
    requires 188 <= unit
    decreases |buf|
  {
    buf == [] || (buf[0] == SYNC && (|buf| <= unit || (
        (Transport(buf[..188]) != 0 || !BrokenPacket(buf[..188])) && InStep(buf[unit..], unit))))
  }

  /** The places of the packets before the last unit, without those stripped. */
  function Places(cfg: Config, buf: seq<byte>, unit: nat, at: nat): seq<nat>
    requires 188 <= unit
    decreases |buf|
  {
    if |buf| <= unit then []
    else (if Stripped(cfg, buf[..188]) then [] else [at]) + Places(cfg, buf[unit..], unit, at + unit)
  }

  /** A stream in step comes out packet for packet, and at most one unit of it
      is kept for the next call. */
  lemma {:induction false} NothingIsLost(cfg: Config, unit: nat, s: State, buf: seq<byte>, at: nat)
    requires 188 <= unit && InStep(buf, unit)
    ensures var r := Scan(cfg, unit, s, buf, at);
      r.stop.None? ==>
        && |r.rest| <= unit && |r.out| == |Places(cfg, buf, unit, at)|
        && forall i | 0 <= i < |r.out| :: r.out[i].at == Places(cfg, buf, unit, at)[i]
    decreases |buf|
  {
    hide Scan, TurnOf, Stripped;
    ScanUnfolds(cfg, unit, s, buf, at);
    if |buf| > unit {
      StepInStep(cfg, unit, s, buf);
      var t := TurnOf(cfg, unit, s, buf);
      if t.Go? {
        NothingIsLost(cfg, unit, t.state, buf[unit..], at + unit);
      }
    } else {
      HaltsAtTheEnd(cfg, unit, s, buf);
    }
  }

  lemma HaltsAtTheEnd(cfg: Config, unit: nat, s: State, buf: seq<byte>)
    requires 188 <= unit && |buf| <= unit
    ensures TurnOf(cfg, unit, s, buf).Halt?
  {
  }

  lemma StepInStep(cfg: Config, unit: nat, s: State, buf: seq<byte>)
    requires 188 <= unit < |buf| && InStep(buf, unit)
    ensures var t := TurnOf(cfg, unit, s, buf);
      && !t.Halt? && t.skip == 0
      && (t.Go? ==> t.past == unit && (t.out.None? <==> Stripped(cfg, buf[..188])))
  {
    hide Handle, Resync, BrokenPacket, PidOf, Transport, StillScrambled, TalliedOnce, SameHead;
    assert buf[unit..][0] == buf[unit];
    assert Cursor(buf, unit) == Some(0);
    HandleFacts(cfg, s, buf[..188]);
  }

  // --------------------------------------------------------- what is restored

  /** A clear packet as it is broadcast: the payload enciphered under the odd
      or the even key, and the scrambling control bits set to tell which. */
  function Scrambled(k: Multi2.Keys, kind: int, c: Packet188): Packet188
    requires 1 <= kind <= 3 && PayloadAt(c) <= PACKET
  {
    var at := PayloadAt(c);
    (c[..at] + k.Encrypted(kind, c[at..]))[3 := c[3] | (kind as byte << 6)]
  }

  lemma MarkBits(b: byte, kind: byte)
    requires b < 64 && kind < 4
    ensures (b | (kind << 6)) & 0x3f == b && (b | (kind << 6)) as int == b as int + 64 * kind as int
  {
  }

  lemma ScrambledHeader(k: Multi2.Keys, kind: int, c: Packet188)
    requires 1 <= kind <= 3 && Scrambling(c) == 0 && HasPayload(c) && !BrokenPacket(c)
    ensures var p := Scrambled(k, kind, c);
      && Scrambling(p) == kind && HasPayload(p) && PayloadAt(p) == PayloadAt(c) && PidOf(p) == PidOf(c)
      && Transport(p) == Transport(c) && !BrokenPacket(p)
      && p[PayloadAt(c)..] == k.Encrypted(kind, c[PayloadAt(c)..])
      && p[..PayloadAt(c)] == c[..PayloadAt(c)][3 := p[3]] && p[3] & 0x3f == c[3]
  {
    MarkedHeader(c, k.Encrypted(kind, c[PayloadAt(c)..]), kind);
  }

  lemma MarkedFlags(c: Packet188, p: Packet188, kind: int)
    requires 1 <= kind <= 3 && Scrambling(c) == 0 && p[3] == c[3] | (kind as byte << 6)
    ensures Scrambling(p) == kind && HasPayload(p) == HasPayload(c) && HasAdaptation(p) == HasAdaptation(c)
    ensures p[3] & 0x3f == c[3]
  {
    MarkBits(c[3], kind as byte);
    MarkedField(c[3] as int, kind);
  }

  lemma MarkedHeader(c: Packet188, payload: seq<byte>, kind: int)
    requires 1 <= kind <= 3 && Scrambling(c) == 0 && HasPayload(c) && !BrokenPacket(c)
    requires PayloadAt(c) + |payload| == 188
    ensures var p: Packet188 := (c[..PayloadAt(c)] + payload)[3 := c[3] | (kind as byte << 6)];
      && Scrambling(p) == kind && HasPayload(p) && PayloadAt(p) == PayloadAt(c) && PidOf(p) == PidOf(c)
      && Transport(p) == Transport(c) && !BrokenPacket(p)
      && p[PayloadAt(c)..] == payload
      && p[..PayloadAt(c)] == c[..PayloadAt(c)][3 := p[3]] && p[3] & 0x3f == c[3]
  {
    hide HasPayload, HasAdaptation, PayloadAt, PidOf, Scrambling, Transport, UnitStart, BrokenPacket;
    AdaptationIsInside(c);
    var p: Packet188 := (c[..PayloadAt(c)] + payload)[3 := c[3] | (kind as byte << 6)];
    MarkedFlags(c, p, kind);
    SameFields(c, p);
    assert p[PayloadAt(c)..] == payload;
  }

  lemma MarkedField(x: int, kind: int)
    requires 0 <= x < 64 && 0 <= kind
    ensures (x + 64 * kind) / 64 == kind
    ensures (x + 64 * kind) / 32 % 2 == x / 32 % 2 && (x + 64 * kind) / 16 % 2 == x / 16 % 2
  {
    MoreQuarters(kind, x);
  }

  /** Descrambling gives back exactly the packet that was scrambled, and counts
      it as a normal one, if and only if all three keys of its decryptor have
      been set; otherwise the loop is left with a decryption error. */
  lemma DescrambleRestores(s: State, k: Multi2.Keys, kind: int, c: Packet188)
    requires 1 <= kind <= 3 && Scrambling(c) == 0 && HasPayload(c) && !BrokenPacket(c)
    requires Chosen(s.links, PidOf(c)).Some? && s.links.decs[Chosen(s.links, PidOf(c)).value].m2 == Some(k)
    ensures var (s', q, r) := Descramble(s, Scrambled(k, kind, c));
      if k.Has(Multi2.CBC_INIT_SET) && k.Has(Multi2.SYSTEM_KEY_SET) && k.Has(Multi2.SCRAMBLE_KEY_SET)
      then q == c && r == 0 && s' == Counted(s, PidOf(c), 1, 0)
      else q != c && r == ERROR_DECRYPT_FAILURE && s' == s
  {
    hide Multi2.CbcEncrypt, Multi2.CbcDecrypt, PayloadAt, HasPayload, PidOf, Scrambled, Chosen;
    var at, p := PayloadAt(c), Scrambled(k, kind, c);
    ScrambledHeader(k, kind, c);
    PayloadInside(c);
    Multi2.ReadyMeansAllKeysSet(k, PACKET - at);
    Multi2.BufferRoundTrip(k, kind, c[at..]);
    RestoredBytes(p, c, at);
  }

  lemma PayloadInside(c: Packet188)
    requires HasPayload(c) && !BrokenPacket(c)
    ensures 4 <= PayloadAt(c) < PACKET
  {
  }

  lemma RestoredBytes(p: Packet188, c: Packet188, at: nat)
    requires 4 <= at < 188 && p[..at] == c[..at][3 := p[3]] && p[3] & 0x3f == c[3]
    ensures Unmarked(p[..at] + c[at..]) == c
  {
    var q: Packet188 := p[..at] + c[at..];
    assert q[3] == p[3];
    assert c[..at] + c[at..] == c;
  }

  /** So the packet loop appends the packet as it was before scrambling. */
  lemma ScrambledPacketComesOutClear(cfg: Config, s: State, k: Multi2.Keys, kind: int, c: Packet188)
    requires 1 <= kind <= 3 && Scrambling(c) == 0 && HasPayload(c) && !BrokenPacket(c)
    requires Transport(c) == 0 && !Stripped(cfg, c)
    requires Chosen(s.links, PidOf(c)).Some? && s.links.decs[Chosen(s.links, PidOf(c)).value].m2 == Some(k)
    requires k.Has(Multi2.CBC_INIT_SET) && k.Has(Multi2.SYSTEM_KEY_SET) && k.Has(Multi2.SCRAMBLE_KEY_SET)
    ensures var h := Handle(cfg, s, Scrambled(k, kind, c)); !h.Skip? && h.out == Some(c)
  {
    hide Descramble, Dispatch, BrokenPacket, Scrambled, PidOf, Transport;
    ScrambledHeader(k, kind, c);
    DescrambleRestores(s, k, kind, c);
  }
}
