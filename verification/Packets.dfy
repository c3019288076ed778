// Packets put together from their parts, as section 2.4.3 of ISO/IEC 13818-1
// describes them: what is read from each of them, and what becomes of the part
// that is scrambled.

module Packets {
  import opened Bytes
  import opened SectionModel
  import opened PidGraph
  import opened Core
  import opened EndToEnd
  import opened Framing
  import EcmKeys
  import Multi2
  import PidInvariant
  import SectionTheorems
  import Streams
  import Tables
  import TableTheorems

  /** The fields of a packet. */
  datatype Parts = Parts(
    error: bool,
    start: bool,
    priority: bool,
    pid: Pid,
    scrambling: nat,
    adaptation: Option<seq<byte>>,
    marked: bool,
    counter: nat,
    payload: seq<byte>)

  /** The bytes of the adaptation field. */
  predicate FieldBytes(b: seq<byte>, adaptation: Option<seq<byte>>) {
    match adaptation
    case None => b == []
    case Some(field) => |b| == 1 + |field| && b[0] as int == |field| && b[1..] == field
  }

  function FieldSize(adaptation: Option<seq<byte>>): nat {
    match adaptation
    case None => 0
    case Some(field) => 1 + |field|
  }

  /** Four header bytes, the adaptation field if there is one, the payload. */
  predicate MadeOf(q: Packet188, x: Parts) {
    && x.scrambling < 4 && x.counter < 16 && FieldSize(x.adaptation) + |x.payload| == 184
    && q[0] == 0x47
    && q[1] as int == 128 * One(x.error) + 64 * One(x.start) + 32 * One(x.priority) + x.pid / 256
    && q[2] as int == x.pid % 256
    && q[3] as int == 64 * x.scrambling + 32 * One(x.adaptation.Some?) + 16 * One(x.marked) + x.counter
    && FieldBytes(q[4..4 + FieldSize(x.adaptation)], x.adaptation)
    && q[4 + FieldSize(x.adaptation)..] == x.payload
  }

  // -------------------------------------------------------- what is read from it

  lemma FirstFields(b: int, c: int, e: nat, s: nat, p: nat, pid: int)
    requires e <= 1 && s <= 1 && p <= 1 && 0 <= pid < 0x2000
    requires b == 128 * e + 64 * s + 32 * p + pid / 256 && c == pid % 256
    ensures b / 128 == e && b / 64 % 2 == s && b % 32 * 256 + c == pid
  {
    var top := pid / 256;
    assert 0 <= top < 32;
    assert b / 64 == 2 * e + s && b % 32 == top;
  }

  lemma LastFields(d: int, k: nat, a: nat, m: nat, c: nat)
    requires k < 4 && a <= 1 && m <= 1 && c < 16 && d == 64 * k + 32 * a + 16 * m + c
    ensures d / 64 == k && d / 32 % 2 == a && d / 16 % 2 == m
  {
    assert d / 32 == 2 * k + a && d / 16 == 4 * k + 2 * a + m;
  }

  lemma HeaderIsRead(q: Packet188, x: Parts)
    requires MadeOf(q, x)
    ensures Transport(q) == One(x.error) && UnitStart(q) == x.start && PidOf(q) == x.pid
    ensures Scrambling(q) == x.scrambling && HasAdaptation(q) == x.adaptation.Some? && HasPayload(q) == x.marked
  {
    FirstFields(q[1] as int, q[2] as int, One(x.error), One(x.start), One(x.priority), x.pid);
    LastFields(q[3] as int, x.scrambling, One(x.adaptation.Some?), One(x.marked), x.counter);
  }

  /** Every field is read as it was written, and the payload from where it starts. */
  lemma PartsAreRead(q: Packet188, x: Parts)
    requires MadeOf(q, x)
    ensures Transport(q) == One(x.error) && Scrambling(q) == x.scrambling && HasPayload(q) == x.marked
    ensures PidOf(q) == x.pid && UnitStart(q) == x.start && PayloadAt(q) == 188 - |x.payload| && q[188 - |x.payload|..] == x.payload
    ensures PutOf(q) == Packet(x.pid, x.start, x.payload)
    ensures BrokenPacket(q) <==> x.marked && x.payload == []
  {
    hide Transport, UnitStart, PidOf, Scrambling, HasAdaptation, HasPayload, MadeOf;
    HeaderIsRead(q, x);
    TailParts(q, x);
    if x.adaptation.Some? {
      assert q[4..4 + FieldSize(x.adaptation)][0] == q[4];
    }
  }

  /** A packet whose adaptation field is longer than what is left, or leaves nothing
      for the payload that is marked, is broken, and no other one. */
  lemma BrokenIsTooLong(q: Packet188)
    ensures BrokenPacket(q) <==>
      q[3] as int / 32 % 2 == 1 && (q[4] as int > 183 || (q[4] as int == 183 && q[3] as int / 16 % 2 == 1))
  {
  }

  lemma SameByte(a: byte, b: byte)
    requires a as int == b as int
    ensures a == b
  {
  }

  lemma SameHead(q: Packet188, q': Packet188, x: Parts)
    requires MadeOf(q, x) && MadeOf(q', x)
    ensures q[0] == q'[0] && q[1] == q'[1] && q[2] == q'[2] && q[3] == q'[3]
  {
    SameByte(q[1], q'[1]);
    SameByte(q[2], q'[2]);
    SameByte(q[3], q'[3]);
  }

  lemma SameField(b: seq<byte>, b': seq<byte>, adaptation: Option<seq<byte>>)
    requires FieldBytes(b, adaptation) && FieldBytes(b', adaptation)
    ensures b == b'
  {
    if adaptation.Some? {
      SameByte(b[0], b'[0]);
      assert b == [b[0]] + b[1..] && b' == [b'[0]] + b'[1..];
    }
  }

  lemma Split(q: Packet188, n: nat)
    requires 4 <= n <= 188
    ensures q == [q[0], q[1], q[2], q[3]] + q[4..n] + q[n..]
  {
  }

  lemma TailParts(q: Packet188, x: Parts)
    requires MadeOf(q, x)
    ensures var n := 4 + FieldSize(x.adaptation); n <= 188 && FieldBytes(q[4..n], x.adaptation) && q[n..] == x.payload
  {
  }

  /** The same fields make the same packet. */
  lemma SamePartsSamePacket(q: Packet188, q': Packet188, x: Parts)
    requires MadeOf(q, x) && MadeOf(q', x)
    ensures q == q'
  {
    hide MadeOf, FieldBytes;
    var n := 4 + FieldSize(x.adaptation);
    SameHead(q, q', x);
    TailParts(q, x);
    TailParts(q', x);
    SameField(q[4..n], q'[4..n], x.adaptation);
    Split(q, n);
    Split(q', n);
  }

  // -------------------------------------------------------------- on air and back

  /** The packet in clear, and on air: the payload enciphered, and marked as such. */
  predicate ClearOne(c: Packet188, x: Parts) {
    MadeOf(c, x.(scrambling := 0))
  }

  predicate AirOne(p: Packet188, x: Parts, kind: nat, enciphered: seq<byte>) {
    MadeOf(p, x.(scrambling := kind, payload := enciphered))
  }

  lemma MarkedByte(c: byte, kind: nat)
    requires c as int < 64 && kind < 4
    ensures (c | (kind as byte << 6)) as int == 64 * kind + c as int
  {
    LowByte(c);
    Streams.MarkBits(c, kind as byte);
  }

  lemma LowByte(c: byte)
    requires c as int < 64
    ensures c < 64
  {
  }

  lemma MarkedIsAir(c: Packet188, x: Parts, kind: nat, enciphered: seq<byte>, p: Packet188)
    requires ClearOne(c, x) && 1 <= kind <= 3 && |enciphered| == |x.payload|
    requires p == (c[..188 - |x.payload|] + enciphered)[3 := c[3] | (kind as byte << 6)]
    ensures AirOne(p, x, kind, enciphered)
  {
    var n := 4 + FieldSize(x.adaptation);
    assert n == 188 - |x.payload|;
    MarkedByte(c[3], kind);
    assert p[4..n] == c[4..n] && p[n..] == enciphered;
  }

  lemma AirIsScrambled(c: Packet188, p: Packet188, x: Parts, k: Multi2.Keys, kind: nat)
    requires 1 <= kind <= 3 && x.marked && x.payload != []
    requires ClearOne(c, x) && AirOne(p, x, kind, k.Encrypted(kind, x.payload))
    ensures Scrambling(c) == 0 && HasPayload(c) && !BrokenPacket(c) && PayloadAt(c) <= PACKET
    ensures Streams.Scrambled(k, kind, c) == p
  {
    hide MadeOf, BrokenPacket, PayloadAt, HasPayload, Scrambling, Transport, PidOf, UnitStart, Multi2.Keys.Encrypted;
    PartsAreRead(c, x.(scrambling := 0));
    var e := k.Encrypted(kind, x.payload);
    var q := Streams.Scrambled(k, kind, c);
    MarkedIsAir(c, x, kind, e, q);
    SamePartsSamePacket(q, p, x.(scrambling := kind, payload := e));
  }

  // ------------------------------------------------------------ which decryptor

  /** The decryptor id serves this PID: it is bound to it, or nothing is known about
      the PID and there is no other decryptor. */
  predicate Serves(l: Links, pid: Pid, id: nat) {
    && id in l.decs
    && ((l.pm[pid].kind == Other && l.pm[pid].target == Decryptor(id)) || (l.pm[pid].kind == Unknown && l.order == [id]))
  }

  lemma ServesIsChosen(l: Links, pid: Pid, id: nat)
    ensures Chosen(l, pid) == Some(id) ==> Serves(l, pid, id)
    ensures Serves(l, pid, id) ==> Chosen(l, pid) == Some(id)
  {
  }

  /** A packet that may be processed: sound, and not stripped. */
  predicate Processed(cfg: Config, x: Parts) {
    !x.error && !(x.pid == 0x1fff && cfg.strip) && (x.marked ==> x.payload != [])
  }

  lemma NotStripped(cfg: Config, q: Packet188, x: Parts)
    requires Processed(cfg, x) && PidOf(q) == x.pid && Transport(q) == 0
    ensures !Streams.Stripped(cfg, q)
  {
    hide PidOf, Transport;
  }

  /** A packet from its parts, with an adaptation field or without: of the bytes on
      air the payload alone is enciphered. If its decryptor has all three keys it
      comes out with the clear payload and all other parts as they were; otherwise
      the loop is left and nothing comes out. */
  lemma PacketComesOutClear(cfg: Config, s: State, id: nat, x: Parts, k: Multi2.Keys, kind: nat, p: Packet188, c: Packet188)
    requires 1 <= kind <= 3 && x.marked && x.payload != [] && Processed(cfg, x)
    requires AirOne(p, x, kind, k.Encrypted(kind, x.payload)) && ClearOne(c, x)
    requires Serves(s.links, x.pid, id) && s.links.decs[id].m2 == Some(k)
    ensures var h := Handle(cfg, s, p);
      if k.Has(Multi2.CBC_INIT_SET) && k.Has(Multi2.SYSTEM_KEY_SET) && k.Has(Multi2.SCRAMBLE_KEY_SET)
      then !h.Skip? && h.out == Some(c)
      else h == Stop(s, None, p, ERROR_DECRYPT_FAILURE)
  {
    hide MadeOf, BrokenPacket, PayloadAt, HasPayload, Scrambling, Transport, PidOf, UnitStart, Multi2.Keys.Encrypted, Serves,
      Streams.Scrambled, Streams.Stripped, Chosen, Multi2.Keys.Has, Multi2.Keys.Check, Dispatch;
    PartsAreRead(c, x.(scrambling := 0));
    AirIsScrambled(c, p, x, k, kind);
    ServesIsChosen(s.links, x.pid, id);
    NotStripped(cfg, c, x);
    Streams.DescrambleRestores(s, k, kind, c);
    if k.Has(Multi2.CBC_INIT_SET) && k.Has(Multi2.SYSTEM_KEY_SET) && k.Has(Multi2.SCRAMBLE_KEY_SET) {
      Streams.ScrambledPacketComesOutClear(cfg, s, k, kind, c);
    } else {
      RefusedStops(cfg, s, k, kind, c, p, x);
    }
  }

  lemma RefusedStops(cfg: Config, s: State, k: Multi2.Keys, kind: nat, c: Packet188, p: Packet188, x: Parts)
    requires 1 <= kind <= 3 && Processed(cfg, x) && AirOne(p, x, kind, k.Encrypted(kind, x.payload)) && x.payload != []
    requires Chosen(s.links, x.pid).Some? && s.links.decs[Chosen(s.links, x.pid).value].m2 == Some(k)
    requires Descramble(s, p).2 == ERROR_DECRYPT_FAILURE
    ensures Handle(cfg, s, p) == Stop(s, None, p, ERROR_DECRYPT_FAILURE)
  {
    hide MadeOf, BrokenPacket, PayloadAt, HasPayload, Scrambling, PidOf, Transport, UnitStart, Multi2.Keys.Encrypted, Chosen,
      Multi2.Keys.Check, Multi2.Keys.Decrypted, Dispatch;
    PartsAreRead(p, x.(scrambling := kind, payload := k.Encrypted(kind, x.payload)));
  }

  /** A scrambled packet that no decryptor serves comes out as it is on air. */
  lemma UnservedStaysScrambled(cfg: Config, s: State, x: Parts, p: Packet188)
    requires MadeOf(p, x) && x.scrambling > 0 && x.marked && Processed(cfg, x)
    requires forall id :: !Serves(s.links, x.pid, id)
    ensures var h := Handle(cfg, s, p); !h.Skip? && h.out == Some(p)
  {
    hide MadeOf, BrokenPacket, PayloadAt, HasPayload, Scrambling, PidOf, Transport, UnitStart, Chosen, Dispatch, Serves,
      Counted, Streams.Stripped;
    PartsAreRead(p, x);
    if Chosen(s.links, x.pid).Some? {
      ServesIsChosen(s.links, x.pid, Chosen(s.links, x.pid).value);
    }
  }

  /** So a packet of a PID that nothing is known about comes out clear if and only if
      there is exactly one decryptor. */
  lemma UnknownPid(cfg: Config, s: State, x: Parts, k: Multi2.Keys, kind: nat, p: Packet188, c: Packet188)
    requires 1 <= kind <= 3 && x.marked && x.payload != [] && Processed(cfg, x) && s.links.pm[x.pid].kind == Unknown
    requires AirOne(p, x, kind, k.Encrypted(kind, x.payload)) && ClearOne(c, x)
    requires forall id | id in s.links.order :: id in s.links.decs && s.links.decs[id].m2 == Some(k)
    requires k.Has(Multi2.CBC_INIT_SET) && k.Has(Multi2.SYSTEM_KEY_SET) && k.Has(Multi2.SCRAMBLE_KEY_SET)
    ensures var h := Handle(cfg, s, p); !h.Skip? && p != c && (h.out == Some(c) <==> |s.links.order| == 1) && h.out in {Some(c), Some(p)}
  {
    hide MadeOf, Handle, Multi2.Keys.Encrypted, Multi2.Keys.Has;
    if |s.links.order| == 1 {
      assert s.links.order[0] in s.links.order;
      PacketComesOutClear(cfg, s, s.links.order[0], x, k, kind, p, c);
    } else {
      UnservedStaysScrambled(cfg, s, x.(scrambling := kind, payload := k.Encrypted(kind, x.payload)), p);
    }
    HeaderIsRead(p, x.(scrambling := kind, payload := k.Encrypted(kind, x.payload)));
    HeaderIsRead(c, x.(scrambling := 0));
  }

  // ---------------------------------------------- from the key bytes to the packet

  /** A payload as it is enciphered under eight key bytes. */
  function Enciphered(start: InitReply, round: int, half: seq<byte>, payload: seq<byte>): seq<byte>
    requires |half| == 8
  {
    Multi2.CbcEncrypt(payload, Multi2.LoadBlock(start.initCbc),
      Multi2.Schedule(Multi2.LoadKey(start.systemKey), Multi2.LoadBlock(half)), round)
  }

  lemma HalfIsLoaded(key: Key16)
    ensures Multi2.LoadBlock(key[..8]) == Multi2.LoadBlock(key)
  {
    hide Be32;
  }

  lemma BroadcastEnciphers(start: InitReply, round: int, key: Key16, kind: int, payload: seq<byte>)
    requires payload != []
    ensures Broadcast(start, round, key).Encrypted(kind, payload)
         == Enciphered(start, round, if kind == 2 then key[8..] else key[..8], payload)
  {
    hide Multi2.Schedule, Multi2.LoadBlock, Multi2.LoadKey, Multi2.CbcEncrypt, Multi2.Keys.Has;
    BroadcastIsReady(start, round, key);
    HalfIsLoaded(key);
    BroadcastFields(start, round, key);
    Multi2.ReadyMeansAllKeysSet(Broadcast(start, round, key), |payload|);
  }

  lemma BroadcastFields(start: InitReply, round: int, key: Key16)
    ensures var k := Broadcast(start, round, key);
      && k.cbcInit == Multi2.LoadBlock(start.initCbc) && k.round == round
      && k.oddWork == Multi2.Schedule(Multi2.LoadKey(start.systemKey), Multi2.LoadBlock(key))
      && k.evenWork == Multi2.Schedule(Multi2.LoadKey(start.systemKey), Multi2.LoadBlock(key[8..]))
  {
    hide Multi2.Schedule, Multi2.LoadBlock, Multi2.LoadKey;
  }

  /** A new decryptor, an ECM that the card answers with sixteen key bytes, and a
      packet whose payload is enciphered under the second eight of them, and marked
      with 2, or under the first eight, and marked with 1 or 3: it comes out clear. */
  lemma AnswerOpensPackets(cfg: Config, s: State, id: nat, raw: seq<byte>, x: Parts, kind: nat, p: Packet188, c: Packet188)
    requires id in s.links.decs && |raw| >= 3 && EcmKeys.Answered(cfg, s, id, raw) && s.links.decs[id].m2 == None
    requires cfg.init(|s.ecmCalls| + 1).status >= 0 && Serves(s.links, x.pid, id)
    requires 1 <= kind <= 3 && x.marked && x.payload != [] && Processed(cfg, x) && ClearOne(c, x)
    requires var key := cfg.ecm(|s.ecmCalls|, Tables.Body(raw)).key;
      AirOne(p, x, kind, Enciphered(cfg.init(|s.ecmCalls| + 1), cfg.round, if kind == 2 then key[8..] else key[..8], x.payload))
    ensures var h := Handle(cfg, EcmSection(cfg, s, id, raw).0, p); !h.Skip? && h.out == Some(c)
  {
    hide Tables.Body, Handle, MadeOf, EcmSection, Broadcast, Enciphered, EcmKeys.Answered, Multi2.Keys.Encrypted,
      Multi2.Keys.Has;
    var start, key := cfg.init(|s.ecmCalls| + 1), cfg.ecm(|s.ecmCalls|, Tables.Body(raw)).key;
    NewCipher(cfg, s, id, raw);
    BroadcastIsReady(start, cfg.round, key);
    BroadcastEnciphers(start, cfg.round, key, kind, x.payload);
    PacketComesOutClear(cfg, EcmSection(cfg, s, id, raw).0, id, x, Broadcast(start, cfg.round, key), kind, p, c);
  }

  // --------------------------------------------------- packets that are let go by

  /** A packet with a transmission error comes out as it is, whatever it carries; a
      null packet is dropped if that is asked for. */
  lemma ErrorsAndNulls(cfg: Config, s: State, q: Packet188, x: Parts)
    requires MadeOf(q, x)
    ensures x.error ==> Handle(cfg, s, q) == Next(s, Some(q), None)
    ensures !x.error && x.pid == 0x1fff && cfg.strip ==> Handle(cfg, s, q) == Next(s, None, None)
  {
    hide MadeOf, Transport, PidOf, BrokenPacket, Descramble, Dispatch;
    HeaderIsRead(q, x);
  }

  /** After a broken packet the loop goes on with the very next byte. */
  lemma BrokenMovesOn(cfg: Config, unit: nat, s: State, buf: seq<byte>, at: nat)
    requires 188 <= unit < |buf| && buf[0] == 0x47 && buf[unit] == 0x47
    requires buf[1] as int < 128 && !Streams.Stripped(cfg, buf[..188])
    requires buf[3] as int / 32 % 2 == 1 && (buf[4] as int > 183 || (buf[4] as int == 183 && buf[3] as int / 16 % 2 == 1))
    ensures Scan(cfg, unit, s, buf, at) == Scan(cfg, unit, s, buf[1..], at + 1)
  {
    hide Scan, TurnOf, BrokenPacket, Descramble, Dispatch, Streams.Stripped;
    var q: Packet188 := buf[..188];
    BrokenIsTooLong(q);
    BrokenIsSkipped(cfg, s, q);
    HeldTurn(cfg, unit, s, buf, q);
    ScanUnfolds(cfg, unit, s, buf, at);
    assert [] + Scan(cfg, unit, s, buf[1..], at + 1).out == Scan(cfg, unit, s, buf[1..], at + 1).out;
  }

  lemma BrokenIsSkipped(cfg: Config, s: State, q: Packet188)
    requires BrokenPacket(q) && q[1] as int < 128 && !Streams.Stripped(cfg, q)
    ensures Handle(cfg, s, q) == Skip
  {
    hide BrokenPacket, Descramble, Dispatch, PidOf;
  }

  // ------------------------------------------------- sections behind such a field

  /** A packet with a section of its own: it starts right behind the pointer_field,
      wherever the payload starts, and stuffing follows it. */
  predicate WithSection(x: Parts, section: seq<byte>) {
    && !x.error && x.start && x.scrambling == 0 && x.marked && SectionTheorems.Sendable(section)
    && |x.payload| >= 1 + |section| && x.payload[0] == 0 && x.payload[1..1 + |section|] == section
    && SectionTheorems.Stuffing(x.payload[1 + |section|..])
  }

  lemma PartsCarry(q: Packet188, x: Parts, section: seq<byte>)
    requires MadeOf(q, x) && WithSection(x, section)
    ensures Carries(q, section) && PidOf(q) == x.pid && |section| >= 3
  {
    hide MadeOf, BrokenPacket, PayloadAt, HasPayload, Scrambling, PidOf, Transport, UnitStart, SectionTheorems.Sendable,
      SectionTheorems.Stuffing;
    PartsAreRead(q, x);
    SendableIsSound(section);
  }

  /** So a CAT, a PMT and an ECM take effect, whatever adaptation field is before
      them. */
  lemma CatFromParts(cfg: Config, s: State, q: Packet188, x: Parts, section: seq<byte>, ds: seq<TableTheorems.Descriptor>)
    returns (taken: Parser)
    requires MadeOf(q, x) && WithSection(x, section) && |section| >= 3 && section[0] == 1 && TableTheorems.CatBytes(section, ds)
    requires x.pid == 1 && s.links.pm[1].kind !in {Ecm, Pmt, Emm} && Waiting(ParserOf(s.cat), 1, section)
    ensures var emm := TableTheorems.Named(ds, cfg.caSystemId);
      Handle(cfg, s, q) == Next(WithEmms(Counted(s, 1, 1, 0), taken, emm), Some(q), Some(0))
  {
    hide MadeOf, Carries, WithSection, PidOf, Handle, WithEmms, Counted, TableTheorems.CatBytes, Waiting;
    PartsCarry(q, x, section);
    taken := CatTakesEffect(cfg, s, q, section, ds);
  }

  lemma PmtFromParts(cfg: Config, s: State, q: Packet188, x: Parts, section: seq<byte>, i: nat,
      ds: seq<TableTheorems.Descriptor>, streams: seq<TableTheorems.Announced>, crc: seq<byte>) returns (taken: Parser)
    requires MadeOf(q, x) && WithSection(x, section) && |section| >= 3 && section[0] == 2
    requires TableTheorems.PmtBytes(section, ds, streams, crc) && Processed(cfg, x)
    requires s.links.pm[x.pid].kind == Pmt && s.links.pm[x.pid].target == ProgramAt(i) && i < |s.programs|
    requires Waiting(s.programs[i].pmt, x.pid, section)
    ensures var s1 := WithPmt(Counted(s, x.pid, 1, 0), i, taken);
      var t := PidInvariant.PmtTable(i, TableTheorems.Named(ds, cfg.caSystemId), TableTheorems.Entries(streams, cfg.caSystemId));
      Handle(cfg, s, q) == Next(Applied(s1, t), Some(q), Some(0))
  {
    hide MadeOf, Carries, WithSection, PidOf, Handle, Applied, Counted, TableTheorems.PmtBytes, Waiting, Streams.Stripped, Transport;
    PartsCarry(q, x, section);
    HeaderIsRead(q, x);
    NotInError(x, section);
    NotStripped(cfg, q, x);
    taken := PmtTakesEffect(cfg, s, q, section, i, ds, streams, crc);
  }

  lemma NotInError(x: Parts, section: seq<byte>)
    requires WithSection(x, section)
    ensures !x.error
  {
  }

  lemma EcmFromParts(cfg: Config, s: State, q: Packet188, x: Parts, section: seq<byte>, id: nat) returns (taken: Parser)
    requires MadeOf(q, x) && WithSection(x, section) && Processed(cfg, x) && cfg.hasCard
    requires s.links.pm[x.pid].kind == Ecm && s.links.pm[x.pid].target == Decryptor(id) && id in s.links.decs
    requires Waiting(s.links.decs[id].ecm, x.pid, section)
    ensures |section| >= 3
    ensures var s1 := Counted(s, x.pid, 1, 0);
      var (s2, r) := EcmSection(cfg, WithDec(s1, id, s1.links.decs[id].(ecm := taken)), id, section);
      Handle(cfg, s, q) == if r < 0 then Stop(s2, Some(q), q, r) else Next(s2, Some(q), Some(r))
  {
    hide MadeOf, Carries, WithSection, PidOf, Handle, Counted, EcmSection, Waiting, Streams.Stripped, Transport;
    PartsCarry(q, x, section);
    HeaderIsRead(q, x);
    NotInError(x, section);
    NotStripped(cfg, q, x);
    taken := EcmIsProcessed(cfg, s, q, section, id);
  }
}
