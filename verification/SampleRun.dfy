// Runs that do happen: of one programme that the card opens, that it declines,
// that it loses an ECM of, and that it does not start for.

module SampleRun {
  import opened Bytes
  import opened SectionModel
  import opened PidGraph
  import opened PidInvariant
  import opened Core
  import opened Framing
  import opened FirstPmt
  import opened EndToEnd
  import opened Search
  import opened Chunking
  import opened Broadcasts
  import opened Programmes
  import opened Failures
  import opened WorkBuffers
  import Bindings
  import Crc32
  import GraphRuns
  import Multi2
  import SectionTheorems
  import Streams
  import Tables
  import TT = TableTheorems
  import UnitSize

  // Program 1 with its PMT on PID 0x100; one stream on PID 0x200, and ECMs for
  // system 5 on PID 0x101.

  const PAT_HEAD: seq<byte> := [0x00, 0xb0, 0x0d, 0, 1, 0xc1, 0, 0, 0, 1, 0xe1, 0x00]

  const PMT_HEAD: seq<byte> := [
    0x02, 0xb0, 0x18, 0, 1, 0xc1, 0, 0, 0xe2, 0x00, 0xf0, 6, 9, 4, 0, 5, 0xe1, 0x01, 2, 0xe2, 0x00, 0xf0, 0]

  /** An ECM that carries this number. */
  function EcmHead(n: byte): seq<byte> {
    [0x82, 0xb0, 0x0a, 0, 0, 0xc1, 0, 0, n]
  }

  /** The section with its CRC. */
  function Closed(head: seq<byte>): seq<byte> {
    head + Split32(Crc32.Crc(head))
  }

  lemma ClosedIsSendable(head: seq<byte>)
    requires |head| >= 8 && LongForm(head) && TotalLength(head) == |head| + 4 && head[0] != 0xff
    ensures SectionTheorems.Sendable(Closed(head)) && |Closed(head)| == |head| + 4
  {
    hide Crc32.Crc, Split32;
    var x, n := Closed(head), |head|;
    assert x[..n] == head && x[n..] == Split32(Crc32.Crc(head));
    assert x[0] == head[0] && x[1] == head[1] && x[2] == head[2];
    assert x[n] == x[n..][0] && x[n + 1] == x[n..][1] && x[n + 2] == x[n..][2] && x[n + 3] == x[n..][3];
    Crc32.ZeroMeansTrailerMatches(x);
    SectionTheorems.SendableIsComplete(x);
  }

  /** The section in a packet of its own. */
  function Packed(hi: byte, lo: byte, x: seq<byte>): Packet188
    requires |x| <= 183
  {
    [SYNC, 0x40 + hi, lo, 0x10, 0] + x + seq(183 - |x|, _ => 0xff as byte)
  }

  lemma PackedCarries(hi: byte, lo: byte, x: seq<byte>)
    requires |x| <= 183 && SectionTheorems.Sendable(x) && hi < 0x20
    ensures var q := Packed(hi, lo, x);
      Carries(q, x) && PidOf(q) == hi as int * 256 + lo as int && q[0] == SYNC
  {
    hide SectionTheorems.Sendable;
    var q := Packed(hi, lo, x);
    HighByte(hi);
    PlainHead(q, hi);
    assert q[4..][1..1 + |x|] == x;
  }

  lemma HighByte(hi: byte)
    requires hi < 0x20
    ensures (0x40 + hi) as int == 64 + hi as int
  {
  }

  lemma PlainHead(q: Packet188, hi: byte)
    requires q[1] as int == 64 + hi as int && hi < 0x20 && q[3] == 0x10
    ensures Transport(q) == 0 && UnitStart(q) && Scrambling(q) == 0 && !BrokenPacket(q) && PayloadAt(q) == 4
    ensures PidOf(q) == hi as int * 256 + q[2] as int
  {
  }

  const DESCRIPTORS := [TT.Descriptor(9, 4, [0, 5, 0xe1, 0x01])]

  const STREAMS := [TT.Announced(2, 0x200, [])]

  function Sample(): Programme {
    Programme(
      Closed(PAT_HEAD), [PatEntry(1, 0x100)], 0, 0x100, Closed(PMT_HEAD), DESCRIPTORS, STREAMS,
      Split32(Crc32.Crc(PMT_HEAD)), Closed(EcmHead(1)))
  }

  /** A packet that is sent as it is. */
  function AsIs(p: Packet188): Sent {
    Sent(0, Multi2.NEW_KEYS, p)
  }

  lemma AsIsIsSent(p: Packet188)
    ensures OnAir(AsIs(p)) == p
  {
    hide Streams.Scrambled;
  }

  lemma SamplePat()
    ensures PatSays(Sample()) && SectionTheorems.Sendable(Sample().patSection) && |Sample().patSection| == 16
  {
    hide Crc32.Crc, Split32, SectionTheorems.Sendable;
    var x := Closed(PAT_HEAD);
    ClosedIsSendable(PAT_HEAD);
    assert x[..12] == PAT_HEAD;
    assert x[0] == PAT_HEAD[0] && x[1] == PAT_HEAD[1];
    assert Tables.Body(x) == PAT_HEAD[8..];
    var body := PAT_HEAD[8..];
    assert body[..4] == [0, 1, 0xe1, 0x00] && body[4..] == [];
    assert TT.PatBytes(body[..4], PatEntry(1, 0x100));
    assert TT.PatBody(body[4..], [PatEntry(1, 0x100)][1..]);
  }

  lemma PmtIsRead(x: seq<byte>, crc: seq<byte>)
    requires |crc| == 4 && x == PMT_HEAD + crc
    ensures TT.PmtBytes(x, DESCRIPTORS, STREAMS, crc)
  {
    hide TT.Written, TT.StreamLoop;
    DescriptorsAreRead();
    assert x[12..18] == [9, 4, 0, 5, 0xe1, 0x01];
    assert x[|x| - 4..] == crc;
    LoopIsRead();
    assert x[18..23] == [2, 0xe2, 0x00, 0xf0, 0];
  }

  lemma DescriptorsAreRead()
    ensures TT.Written(DESCRIPTORS) == [9, 4, 0, 5, 0xe1, 0x01]
  {
    assert DESCRIPTORS[1..] == [];
  }

  lemma LoopIsRead()
    ensures TT.StreamLoop([2, 0xe2, 0x00, 0xf0, 0], STREAMS)
  {
    var body: seq<byte> := [2, 0xe2, 0x00, 0xf0, 0];
    assert body[..5] == body && body[5..] == [] && STREAMS[1..] == [];
  }

  lemma OneProgram()
    ensures NewPrograms([PatEntry(1, 0x100)]) == [NewProgram(1, 0x100)]
  {
    assert [PatEntry(1, 0x100)][1..] == [];
  }

  lemma SamplePmt()
    ensures PmtSays(Sample()) && SectionTheorems.Sendable(Sample().pmtSection) && |Sample().pmtSection| == 27
    ensures |NewPrograms(Sample().entries)| == 1
  {
    hide Crc32.Crc, Split32, SectionTheorems.Sendable, TT.PmtBytes, NewPrograms;
    ClosedIsSendable(PMT_HEAD);
    PmtIsRead(Closed(PMT_HEAD), Split32(Crc32.Crc(PMT_HEAD)));
    OneProgram();
  }

  lemma SampleEcm(n: byte)
    ensures var x := Closed(EcmHead(n));
      SectionTheorems.Sendable(x) && |x| == 13 && x[0] == 0x82 && Tables.Body(x) == [n] && x[8] == n
  {
    hide Crc32.Crc, Split32, SectionTheorems.Sendable;
    var head := EcmHead(n);
    var x := Closed(head);
    ClosedIsSendable(head);
    assert x[..9] == head;
    assert x[0] == head[0] && x[1] == head[1] && x[8] == head[8];
    assert Tables.Body(x) == head[8..] == [n];
  }

  /** The card's system is 5, and no PID is used in two roles. */
  ghost predicate Suits(cfg: Config, roles: Roles) {
    && cfg.caSystemId == 5 && !cfg.strip
    && roles(0) == PatRole && roles(0x100) == PmtRole && roles(0x101) == EcmRole && roles(0x200) == EsRole
  }

  lemma SampleSays(cfg: Config)
    requires cfg.caSystemId == 5
    ensures MajorOf(cfg, Sample()) == 0x101 && StreamsOf(cfg, Sample()) == [EsEntry(2, 0x200, 0)]
    ensures Sample().entries == [PatEntry(1, 0x100)] && Sample().pmtPid == 0x100 && Sample().ecmSection == Closed(EcmHead(1))
  {
    hide Crc32.Crc, Split32, Closed;
    var o := Sample();
    assert o.streams[1..] == [] && o.streams[0].ds == [];
  }

  lemma OneStream(ess: seq<EsEntry>)
    requires ess == [EsEntry(2, 0x200, 0)]
    ensures Shares(ess, 0x200) && !OtherEcm(ess, 0x101)
  {
    assert Bindings.LastWord(ess, 0);
  }

  lemma SampleFits(cfg: Config, roles: Roles)
    requires Suits(cfg, roles)
    ensures Coherent(cfg, roles, Sample()) && |Sample().ecmSection| >= 3 && Shares(StreamsOf(cfg, Sample()), 0x200)
    ensures PmtsNeeded(Sample()) == 1 && EcmsNeeded(cfg, Sample()) == 1
  {
    hide PatSays, PmtSays, Shares, OtherEcm, StreamsOf, MajorOf, Sample, NewPrograms, SectionTheorems.Sendable, Closed;
    SampleSays(cfg);
    SamplePat();
    SamplePmt();
    SampleEcm(1);
    OneStream(StreamsOf(cfg, Sample()));
  }

  // ---------------------------------------------------------------- its packets

  function PatPacket(): Packet188 {
    SamplePat();
    Packed(0, 0, Sample().patSection)
  }

  function PmtPacket(): Packet188 {
    SamplePmt();
    Packed(1, 0, Sample().pmtSection)
  }

  function EcmPacket(n: byte): Packet188 {
    SampleEcm(n);
    Packed(1, 1, Closed(EcmHead(n)))
  }

  /** A clear packet of the stream, with a payload of zeros. */
  function ClearPacket(): Packet188 {
    [SYNC, 0x02, 0x00, 0x10] + seq(184, _ => 0 as byte)
  }

  lemma ClearHead()
    ensures var c := ClearPacket();
      && Scrambling(c) == 0 && HasPayload(c) && !BrokenPacket(c) && PayloadAt(c) == 4 && Transport(c) == 0
      && PidOf(c) == 0x200 && c[0] == SYNC
  {
  }

  /** The same packet, scrambled under the keys of the first ECM. */
  function Encrypted(cfg: Config): Sent {
    SampleEcm(1);
    Sent(1, KeysFor(cfg, Sample()), ClearPacket())
  }

  lemma EncryptedStarts(k: Multi2.Keys)
    ensures OnAir(Sent(1, k, ClearPacket()))[0] == SYNC
  {
    hide ClearPacket, Multi2.CbcEncrypt;
    ClearHead();
  }

  lemma NotStripped(cfg: Config, p: Packet188)
    requires !cfg.strip
    ensures !Streams.Stripped(cfg, p)
  {
    hide Transport, PidOf;
  }

  lemma PacketsAre()
    ensures |Sample().patSection| <= 183 && |Sample().pmtSection| <= 183
    ensures PatPacket() == Packed(0, 0, Sample().patSection) && PmtPacket() == Packed(1, 0, Sample().pmtSection)
  {
    hide Sample, Packed;
    SamplePat();
    SamplePmt();
  }

  lemma Conveyed(cfg: Config, p: Packet188, section: seq<byte>)
    requires !cfg.strip && Carries(p, section)
    ensures Conveys(cfg, AsIs(p), section) && AsIs(p).clear == p
  {
    hide Carries, Streams.Stripped;
    NotStripped(cfg, p);
  }

  lemma IsTable(cfg: Config, roles: Roles, o: Programme, x: Sent)
    ensures PidOf(x.clear) == 0 && Conveys(cfg, x, o.patSection) ==>
              OfProgramme(cfg, roles, o, x) && PartOf(cfg, o, x) == PatPart
    ensures PidOf(x.clear) == o.pmtPid != 0 && Conveys(cfg, x, o.pmtSection) ==>
              OfProgramme(cfg, roles, o, x) && PartOf(cfg, o, x) == PmtPart
  {
    hide PidOf, Conveys, MajorOf, StreamPacket;
  }

  lemma IsStreamPacket(cfg: Config, roles: Roles, o: Programme, x: Sent)
    requires x.selector <= 1 && Scrambling(x.clear) == 0 && HasPayload(x.clear) && !BrokenPacket(x.clear)
    requires Transport(x.clear) == 0 && !Streams.Stripped(cfg, x.clear) && PidOf(x.clear) == 0x200 && roles(0x200) == EsRole
    requires Shares(StreamsOf(cfg, o), 0x200)
    ensures StreamPacket(cfg, roles, o, x)
  {
    hide PidOf, StreamsOf, Shares, Streams.Stripped, Transport, Scrambling, HasPayload, BrokenPacket;
  }

  lemma IsStream(cfg: Config, roles: Roles, o: Programme, x: Sent)
    requires StreamPacket(cfg, roles, o, x) && PidOf(x.clear) !in [0, o.pmtPid, MajorOf(cfg, o)]
    ensures OfProgramme(cfg, roles, o, x) && PartOf(cfg, o, x) == StreamPart
  {
    hide PidOf, Conveys, MajorOf, StreamPacket;
  }

  lemma TablePackets(cfg: Config, roles: Roles)
    requires Suits(cfg, roles)
    ensures var x := AsIs(PatPacket()); OfProgramme(cfg, roles, Sample(), x) && PartOf(cfg, Sample(), x) == PatPart
    ensures var x := AsIs(PmtPacket()); OfProgramme(cfg, roles, Sample(), x) && PartOf(cfg, Sample(), x) == PmtPart
    ensures PatPacket()[0] == PmtPacket()[0] == SYNC
  {
    hide *;
    SuitsMeans(cfg, roles);
    PacketsAre();
    SamplePat();
    SamplePmt();
    SampleSays(cfg);
    PackedCarries(0, 0, Sample().patSection);
    PackedCarries(1, 0, Sample().pmtSection);
    Conveyed(cfg, PatPacket(), Sample().patSection);
    Conveyed(cfg, PmtPacket(), Sample().pmtSection);
    IsTable(cfg, roles, Sample(), AsIs(PatPacket()));
    IsTable(cfg, roles, Sample(), AsIs(PmtPacket()));
  }

  lemma EcmPackets(cfg: Config, roles: Roles, n: byte)
    requires Suits(cfg, roles)
    ensures var x := AsIs(EcmPacket(n)); Conveys(cfg, x, Closed(EcmHead(n))) && PartOf(cfg, Sample(), x) == EcmPart
    ensures EcmPacket(n)[0] == SYNC && (n == 1 ==> OfProgramme(cfg, roles, Sample(), AsIs(EcmPacket(n))))
    ensures PidOf(EcmPacket(n)) == MajorOf(cfg, Sample())
  {
    hide SectionTheorems.Sendable, Carries, Packed, Sample, PidOf, MajorOf, Streams.Stripped, Closed, EcmHead;
    SampleEcm(n);
    SampleSays(cfg);
    PackedCarries(1, 1, Closed(EcmHead(n)));
    NotStripped(cfg, EcmPacket(n));
  }

  lemma SuitsMeans(cfg: Config, roles: Roles)
    requires Suits(cfg, roles)
    ensures cfg.caSystemId == 5 && !cfg.strip && roles(0x200) == EsRole
  {
  }

  lemma StreamPackets(cfg: Config, roles: Roles, x: Sent)
    requires Suits(cfg, roles) && x.selector <= 1 && x.clear == ClearPacket()
    ensures OfProgramme(cfg, roles, Sample(), x) && PartOf(cfg, Sample(), x) == StreamPart && StreamPacket(cfg, roles, Sample(), x)
    ensures OnAir(x)[0] == SYNC
  {
    hide *;
    SuitsMeans(cfg, roles);
    SampleSays(cfg);
    OneStream(StreamsOf(cfg, Sample()));
    ClearHead();
    NotStripped(cfg, ClearPacket());
    IsStreamPacket(cfg, roles, Sample(), x);
    IsStream(cfg, roles, Sample(), x);
    if x.selector == 1 {
      EncryptedStarts(x.keys);
    } else {
      ClearStarts(x);
    }
  }

  lemma ClearStarts(x: Sent)
    requires x.selector == 0
    ensures OnAir(x) == x.clear
  {
    hide Streams.Scrambled;
  }

  // ---------------------------------------------------------------- the stream

  /** Packets one after the other. */
  function AirOf(xs: seq<Sent>): seq<byte> {
    if xs == [] then [] else OnAir(xs[0]) + AirOf(xs[1..])
  }

  ghost predicate AllStart(xs: seq<Sent>) {
    forall x | x in xs :: OnAir(x)[0] == SYNC
  }

  lemma {:induction false} AirHolds(xs: seq<Sent>)
    requires AllStart(xs)
    ensures Holds(AirOf(xs) + [SYNC], 188, xs, [SYNC])
    ensures |AirOf(xs)| == 188 * |xs| && forall k | 0 <= k <= |xs| :: (AirOf(xs) + [SYNC])[188 * k] == SYNC
    decreases |xs|
  {
    hide OnAir;
    if xs != [] {
      assert xs[0] in xs && forall x | x in xs[1..] :: x in xs;
      AirHolds(xs[1..]);
      var p: seq<byte> := OnAir(xs[0]);
      var rest: seq<byte> := AirOf(xs[1..]) + [SYNC];
      assert AirOf(xs) + [SYNC] == p + rest;
      assert (p + rest)[188..] == rest && (p + rest)[..188] == p;
      forall k | 0 <= k <= |xs| ensures (p + rest)[188 * k] == SYNC {
        assert k > 0 ==> (p + rest)[188 * k] == rest[188 * (k - 1)];
      }
    }
  }

  /** Clear packets of the stream. */
  function Fill(n: nat): seq<Sent> {
    if n == 0 then [] else [AsIs(ClearPacket())] + Fill(n - 1)
  }

  lemma {:induction false} FillIsClear(n: nat)
    ensures |Fill(n)| == n && forall x | x in Fill(n) :: x == AsIs(ClearPacket())
  {
    if n > 0 {
      FillIsClear(n - 1);
    }
  }

  /** It has no sync bytes but those that packets start with. */
  lemma {:induction false} FillHasNoStrays(n: nat)
    ensures |AirOf(Fill(n))| == 188 * n
    ensures forall i | 0 <= i < 188 * n && AirOf(Fill(n))[i] == SYNC :: i % 188 == 0
  {
    hide OnAir, ClearPacket;
    if n > 0 {
      FillHasNoStrays(n - 1);
      var p: seq<byte>, rest: seq<byte> := ClearPacket(), AirOf(Fill(n - 1));
      ClearStarts(AsIs(ClearPacket()));
      assert Fill(n)[1..] == Fill(n - 1);
      OneSync();
      forall i | 0 <= i < 188 * n && AirOf(Fill(n))[i] == SYNC ensures i % 188 == 0 {
        assert i >= 188 ==> AirOf(Fill(n))[i] == rest[i - 188];
        assert i < 188 ==> AirOf(Fill(n))[i] == p[i];
      }
    }
  }

  lemma OneSync()
    ensures forall i | 0 < i < 188 :: ClearPacket()[i] != SYNC
  {
  }

  lemma {:induction false} AirOfBoth(a: seq<Sent>, b: seq<Sent>)
    ensures AirOf(a + b) == AirOf(a) + AirOf(b)
    decreases |a|
  {
    hide OnAir;
    if a == [] {
      assert a + b == b;
    } else {
      assert (a + b)[1..] == a[1..] + b;
      AirOfBoth(a[1..], b);
      assert OnAir(a[0]) + (AirOf(a[1..]) + AirOf(b)) == OnAir(a[0]) + AirOf(a[1..]) + AirOf(b);
    }
  }

  /** The tables, an ECM, a packet that may be scrambled, and n clear ones: so many
      that stray sync bytes in the first four do not matter. */
  function SamplePackets(y: Sent, n: nat): seq<Sent> {
    [AsIs(PatPacket()), AsIs(PmtPacket()), AsIs(EcmPacket(1)), y] + Fill(n)
  }

  function SampleBytes(y: Sent, n: nat): seq<byte> {
    AirOf(SamplePackets(y, n)) + [SYNC]
  }

  lemma FindsDistance(a: seq<Sent>, n: nat)
    requires |a| == 4 && AllStart(a + Fill(n)) && n >= 1600
    ensures Detected(AirOf(a + Fill(n)) + [SYNC]) == Some(188)
  {
    hide OnAir, AirOf, UnitSize.Stray, UnitSize.OnGrid, UnitSize.MostFrequent, UnitSize.Convincing, AllStart, Fill, Holds;
    var xs := a + Fill(n);
    var s: seq<byte> := AirOf(xs) + [SYNC];
    AirHolds(xs);
    FillIsClear(n);
    FillHasNoStrays(n);
    AirOfBoth(a, Fill(n));
    var b: seq<byte> := AirOf(Fill(n));
    assert |AirOf(a)| == 752;
    forall p: nat | 752 <= p < |s| && s[p] == SYNC ensures UnitSize.OnGrid(0, 188, p) {
      assert p < |s| - 1 ==> s[p] == b[p - 752];
      OnGridAt(p);
    }
    UnitSize.FewStrays(s, 0, 188, 752, |s|);
    StepsAt(s, |xs| + 1);
    UnitSize.StraySyncsDoNotMatter(s, 0, 188, |xs| + 1);
    DetectedIs(s, Some(188));
  }

  lemma StepsAt(s: seq<byte>, count: nat)
    requires |s| == 188 * (count - 1) + 1 && forall k | 0 <= k < count :: s[188 * k] == SYNC
    ensures UnitSize.InStep(s, 0, 188, count)
  {
    forall k: nat | k < count ensures UnitSize.Place(0, 188, k) < |s| && s[UnitSize.Place(0, 188, k)] == SYNC {
      assert UnitSize.Place(0, 188, k) == 188 * k;
    }
  }

  lemma OnGridAt(p: nat)
    requires (p - 752) % 188 == 0
    ensures UnitSize.OnGrid(0, 188, p)
  {
    var k: nat := p / 188;
    assert p == UnitSize.Place(0, 188, k);
  }

  lemma {:induction false} TimesAt(cfg: Config, o: Programme, xs: seq<Sent>, i: nat)
    requires i < |xs|
    ensures Times(cfg, o, xs, PartOf(cfg, o, xs[i])) >= 1
    decreases i
  {
    hide PartOf;
    if i > 0 {
      TimesAt(cfg, o, xs[1..], i - 1);
    }
  }

  lemma ReachesAt(cfg: Config, o: Programme, xs: seq<Sent>)
    requires |xs| >= 3 && PartOf(cfg, o, xs[0]) == PatPart && PartOf(cfg, o, xs[1]) == PmtPart && PartOf(cfg, o, xs[2]) == EcmPart
    requires PmtsNeeded(o) == 1
    ensures Reaches(cfg, o, xs)
  {
    hide PartOf, Times, PmtsNeeded;
    TimesAt(cfg, o, xs, 0);
    TimesAt(cfg, o, xs, 1);
    TimesAt(cfg, o, xs, 2);
  }

  ghost predicate Fine(cfg: Config, roles: Roles, o: Programme, x: Sent) {
    OfProgramme(cfg, roles, o, x) && OnAir(x)[0] == SYNC
  }

  lemma AllFine(cfg: Config, roles: Roles, o: Programme, xs: seq<Sent>)
    requires forall x | x in xs :: Fine(cfg, roles, o, x)
    ensures AllOf(cfg, roles, o, xs) && AllStart(xs)
  {
    hide OfProgramme, OnAir;
  }

  lemma FourAndMore(cfg: Config, roles: Roles, o: Programme, a: seq<Sent>, b: seq<Sent>)
    requires |a| == 4 && Fine(cfg, roles, o, a[0]) && Fine(cfg, roles, o, a[1]) && Fine(cfg, roles, o, a[2]) && Fine(cfg, roles, o, a[3])
    requires forall x | x in b :: Fine(cfg, roles, o, x)
    ensures AllOf(cfg, roles, o, a + b) && AllStart(a + b)
  {
    hide Fine, AllOf, AllStart;
    AllFine(cfg, roles, o, a + b);
  }

  lemma TablesAreFine(cfg: Config, roles: Roles)
    requires Suits(cfg, roles)
    ensures Fine(cfg, roles, Sample(), AsIs(PatPacket())) && Fine(cfg, roles, Sample(), AsIs(PmtPacket()))
    ensures Fine(cfg, roles, Sample(), AsIs(EcmPacket(1)))
  {
    hide Sample, PatPacket, PmtPacket, EcmPacket, OfProgramme, PartOf, OnAir, Suits, AsIs;
    TablePackets(cfg, roles);
    EcmPackets(cfg, roles, 1);
    AsIsIsSent(PatPacket());
    AsIsIsSent(PmtPacket());
    AsIsIsSent(EcmPacket(1));
  }

  lemma StreamIsFine(cfg: Config, roles: Roles, x: Sent)
    requires Suits(cfg, roles) && x.selector <= 1 && x.clear == ClearPacket()
    ensures Fine(cfg, roles, Sample(), x)
  {
    hide Sample, ClearPacket, OfProgramme, PartOf, OnAir, Suits, StreamPacket;
    StreamPackets(cfg, roles, x);
  }

  lemma FillIsFine(cfg: Config, roles: Roles, n: nat)
    requires Suits(cfg, roles)
    ensures forall x | x in Fill(n) :: Fine(cfg, roles, Sample(), x)
  {
    hide Sample, ClearPacket, Fine, Suits, Fill;
    FillIsClear(n);
    StreamIsFine(cfg, roles, AsIs(ClearPacket()));
  }

  /** All of it is of the programme, and enough to descramble it. */
  lemma SampleIsEnough(cfg: Config, roles: Roles, y: Sent, n: nat)
    requires n >= 1600 && Suits(cfg, roles) && y.selector <= 1 && y.clear == ClearPacket()
    ensures AllOf(cfg, roles, Sample(), SamplePackets(y, n)) && Reaches(cfg, Sample(), SamplePackets(y, n))
    ensures Holds(SampleBytes(y, n), 188, SamplePackets(y, n), [SYNC]) && Detected(SampleBytes(y, n)) == Some(188)
    ensures |SamplePackets(y, n)| == n + 4 && SamplePackets(y, n)[3] == y
  {
    hide Sample, PatPacket, PmtPacket, EcmPacket, ClearPacket, Fine, PartOf, AirOf, Holds, Times, Suits, Fill, AsIs, AllOf,
      AllStart, Reaches, Detected, OfProgramme, OnAir, Conveys, PmtsNeeded, StreamsOf, MajorOf, Coherent, Shares, EcmsNeeded;
    var a, xs, o := [AsIs(PatPacket()), AsIs(PmtPacket()), AsIs(EcmPacket(1)), y], SamplePackets(y, n), Sample();
    TablesAreFine(cfg, roles);
    StreamIsFine(cfg, roles, y);
    FillIsFine(cfg, roles, n);
    FillIsClear(n);
    FourAndMore(cfg, roles, o, a, Fill(n));
    TablePackets(cfg, roles);
    EcmPackets(cfg, roles, 1);
    SampleFits(cfg, roles);
    ReachesAt(cfg, o, xs);
    AirHolds(xs);
    FindsDistance(a, n);
  }

  // ------------------------------------------------------------------- its card

  /** A card of system 5 that starts with these replies. */
  function Card(ecm: (nat, seq<byte>) -> EcmReply, init: nat -> InitReply): Config {
    Config(false, false, 4, 5, [], true, ecm, (n, d) => 0, init)
  }

  function NoKey(): Key16 { seq(16, _ => 0) }

  function Start(status: int): InitReply {
    InitReply(status, seq(32, _ => 0), seq(8, _ => 0))
  }

  function SampleRoles(p: Pid): Role {
    if p == 0 then PatRole else if p == 0x100 then PmtRole else if p == 0x101 then EcmRole else EsRole
  }

  lemma SampleSuits(cfg: Config)
    requires cfg.caSystemId == 5 && !cfg.strip
    ensures Suits(cfg, SampleRoles)
  {
  }

  lemma CardReply(ecm: (nat, seq<byte>) -> EcmReply, init: nat -> InitReply)
    ensures var cfg := Card(ecm, init);
      cfg.caSystemId == 5 && !cfg.strip && cfg.hasCard && cfg.ecm == ecm && cfg.init == init
  {
  }

  lemma OnePiece(a: seq<byte>)
    requires Detected(a) == Some(188)
    ensures Flatten([a]) == a && TunesTo([a], 188)
  {
    hide Detected, Found;
    assert [a][1..] == [];
    assert Flatten([a]) == a + [];
    assert [a][..1] == [a];
    assert Flatten([a][..1]) == a;
  }

  lemma EnoughFor(cfg: Config, roles: Roles, o: Programme, xs: seq<Sent>, open: bool)
    requires Reaches(cfg, o, xs) && EcmsNeeded(cfg, o) == 1 && CodeOf(cfg, open) <= 1
    ensures Enough(cfg, o, xs, open)
  {
    hide EcmsNeeded, Times, PmtsNeeded;
  }

  lemma {:induction false} ClearAt(xs: seq<Sent>, at: nat, i: nat)
    requires i < |xs|
    ensures |Clear(xs, 188, at)| == |xs| && Clear(xs, 188, at)[i] == Emitted(at + 188 * i, xs[i].clear)
    decreases |xs|
  {
    if |xs| > 1 {
      ClearAt(xs[1..], at + 188, if i > 0 then i - 1 else 0);
    }
  }

  lemma Keys(cfg: Config)
    ensures Encrypted(cfg).selector == 1 && Encrypted(cfg).clear == ClearPacket() && |Sample().ecmSection| >= 3
    ensures Encrypted(cfg).keys == KeysFor(cfg, Sample())
  {
    hide Sample, ClearPacket, KeysFor, Closed, SectionTheorems.Sendable;
    SampleEcm(1);
    SampleSection();
  }

  lemma SampleSection()
    ensures Sample().ecmSection == Closed(EcmHead(1))
  {
    hide Closed;
  }

  /** Only the scrambled packet has keys to it. */
  lemma SampleIsKeyed(cfg: Config, roles: Roles, n: nat)
    requires n >= 1600 && Suits(cfg, roles)
    ensures |Sample().ecmSection| >= 3
    ensures forall x | x in SamplePackets(Encrypted(cfg), n) ::
              OfProgramme(cfg, roles, Sample(), x) && (x.selector > 0 ==> x.keys == KeysFor(cfg, Sample()))
  {
    hide Sample, PatPacket, PmtPacket, EcmPacket, ClearPacket, Fill, Encrypted, KeysFor, OfProgramme, Reaches, Holds, Detected, Suits;
    Keys(cfg);
    SampleIsEnough(cfg, roles, Encrypted(cfg), n);
    FillIsClear(n);
  }

  // --------------------------------------------------------------------- the runs

  lemma SampleIsOpened(cfg: Config, roles: Roles, n: nat, y: Sent, data: seq<byte>, o: Programme) returns (xs: seq<Sent>)
    requires n >= 1600 && Suits(cfg, roles) && cfg.hasCard && cfg.init(1).status == 0
    requires cfg.ecm(0, [1]).status >= 0 && Purchased(cfg.ecm(0, [1]).returnCode)
    requires y == Encrypted(cfg) && data == SampleBytes(y, n) && o == Sample()
    ensures Detected(data) == Some(188) && Holds(data, 188, xs, [SYNC]) && |xs| == n + 4 && xs[3] == y && y.clear == ClearPacket()
    ensures Coherent(cfg, roles, o) && |o.ecmSection| >= 3 && Answers(cfg, o.ecmSection, true) && Enough(cfg, o, xs, true)
    ensures AllOf(cfg, roles, o, xs) && AllKeyed(cfg, o, xs, true)
  {
    hide *;
    xs := SamplePackets(y, n);
    Keys(cfg);
    SampleFits(cfg, roles);
    SampleIsEnough(cfg, roles, y, n);
    SampleIsKeyed(cfg, roles, n);
    SamplePays(cfg);
    EnoughFor(cfg, roles, o, xs, true);
    AreKeyed(cfg, roles, o, xs);
  }

  lemma OpenedRun(cfg: Config, roles: Roles, o: Programme, data: seq<byte>, xs: seq<Sent>) returns (r: Called)
    requires Detected(data) == Some(188) && Holds(data, 188, xs, [SYNC]) && |xs| >= 4
    requires Coherent(cfg, roles, o) && |o.ecmSection| >= 3 && Answers(cfg, o.ecmSection, true) && Enough(cfg, o, xs, true)
    requires AllOf(cfg, roles, o, xs) && AllKeyed(cfg, o, xs, true)
    ensures r == Puts(cfg, Called(Session(NEW_STATE, 0, 0, []), [], 0), [data], 0)
    ensures |r.out| == |xs| && r.out[3] == Emitted(564, xs[3].clear) && r.session.rest == [SYNC]
    ensures r.session.unit == 188 && Admitted(r.session.core)
    ensures exists id: nat :: WithDecryptor(cfg, roles, o, r.session.core, id, true)
  {
    hide *;
    OnePiece(data);
    PutsOfAll(cfg, roles, 188, o, true, [data], xs, [SYNC]);
    r := Puts(cfg, Called(Session(NEW_STATE, 0, 0, []), [], 0), [data], 0);
    ItComesTo(cfg, roles, o, data, xs, r);
    ClearAt(xs, 0, 3);
  }

  lemma AreKeyed(cfg: Config, roles: Roles, o: Programme, xs: seq<Sent>)
    requires |o.ecmSection| >= 3
    requires forall x | x in xs :: OfProgramme(cfg, roles, o, x) && (x.selector > 0 ==> x.keys == KeysFor(cfg, o))
    ensures AllOf(cfg, roles, o, xs) && AllKeyed(cfg, o, xs, true)
  {
    hide OfProgramme, KeysFor;
  }

  lemma ItComesTo(cfg: Config, roles: Roles, o: Programme, data: seq<byte>, xs: seq<Sent>, r: Called)
    requires |o.ecmSection| >= 3 && ComesTo(cfg, roles, 188, o, true, data, xs, [SYNC], r) && Enough(cfg, o, xs, true)
    ensures r.out == Clear(xs, 188, 0) && r.session.rest == [SYNC] && r.session.unit == 188 && Admitted(r.session.core)
    ensures exists id: nat :: WithDecryptor(cfg, roles, o, r.session.core, id, true)
  {
    hide Enough, Reaches, Seen, Clear, Admitted, WithDecryptor;
    ClearIsSeen(xs, 188, 0);
  }

  lemma SamplePays(cfg: Config)
    requires cfg.hasCard && cfg.init(1).status == 0 && cfg.ecm(0, [1]).status >= 0 && Purchased(cfg.ecm(0, [1]).returnCode)
    ensures |Sample().ecmSection| >= 3 && Answers(cfg, Sample().ecmSection, true) && CodeOf(cfg, true) == 0
  {
    hide Sample, Closed, Tables.Body, Purchased, SectionTheorems.Sendable;
    SampleSection();
    SampleEcm(1);
  }

  lemma SampleIsDeclined(cfg: Config)
    requires cfg.hasCard && cfg.ecm(0, [1]).status >= 0 && !Purchased(cfg.ecm(0, [1]).returnCode)
    ensures |Sample().ecmSection| >= 3 && Declines(cfg, Sample().ecmSection) && CodeOf(cfg, false) == 1
  {
    hide Sample, Closed, Tables.Body, Purchased, SectionTheorems.Sendable;
    SampleSection();
    SampleEcm(1);
  }

  lemma SampleDoesNotStart(cfg: Config)
    requires cfg.hasCard && cfg.ecm(0, [1]).status >= 0 && Purchased(cfg.ecm(0, [1]).returnCode) && cfg.init(1).status < 0
    ensures FailsToStart(cfg, Sample().ecmSection)
  {
    hide Sample, Closed, Tables.Body, Purchased, SectionTheorems.Sendable;
    SampleSection();
    SampleEcm(1);
  }

  lemma PaidFor()
    ensures Purchased(0x0800) && !Purchased(0)
  {
  }

  /** A run with a scrambled packet on air that comes out as it was. */
  lemma SomeRunComesOutClear()
    ensures exists cfg: Config, y: Sent, n: nat, data: seq<byte> ::
      var out := Puts(cfg, Called(Session(NEW_STATE, 0, 0, []), [], 0), [data], 0).out;
      data == SampleBytes(y, n) && y.selector == 1 && |out| == n + 4 && out[3] == Emitted(564, y.clear)
  {
    hide *;
    var cfg := Card((n, d) => EcmReply(0, 0x0800, NoKey()), n => Start(0));
    CardReply((n, d) => EcmReply(0, 0x0800, NoKey()), n => Start(0));
    PaidFor();
    SampleSuits(cfg);
    StartStatus(0);
    Keys(cfg);
    var y, n := Encrypted(cfg), 1600;
    var data := SampleBytes(y, n);
    var xs := SampleIsOpened(cfg, SampleRoles, n, y, data, Sample());
    var r := OpenedRun(cfg, SampleRoles, Sample(), data, xs);
  }

  lemma LockedRun(cfg: Config, roles: Roles, n: nat, data: seq<byte>) returns (id: nat)
    requires n >= 1600 && Suits(cfg, roles) && cfg.hasCard
    requires cfg.ecm(0, [1]).status >= 0 && !Purchased(cfg.ecm(0, [1]).returnCode)
    requires data == SampleBytes(AsIs(ClearPacket()), n)
    ensures var s := Puts(cfg, Called(Session(NEW_STATE, 0, 0, []), [], 0), [data], 0).session.core;
      Admitted(s) && GraphRuns.AllFit(roles, s.tables) && HoldsBack(s.links, 0x200, id)
  {
    hide *;
    var y, o := AsIs(ClearPacket()), Sample();
    var xs := SamplePackets(y, n);
    ItsParts();
    SampleFits(cfg, roles);
    SampleIsEnough(cfg, roles, y, n);
    SampleIsDeclined(cfg);
    OnePiece(data);
    EnoughFor(cfg, roles, o, xs, false);
    AllAre(cfg, roles, o, xs);
    id := DeclinedProgrammeIsLocked(cfg, roles, 188, o, [data], xs, [SYNC]);
  }

  lemma ItsParts()
    ensures AsIs(ClearPacket()).clear == ClearPacket() && AsIs(ClearPacket()).selector == 0
  {
    hide ClearPacket;
  }

  lemma AllAre(cfg: Config, roles: Roles, o: Programme, xs: seq<Sent>)
    requires AllOf(cfg, roles, o, xs)
    ensures forall x | x in xs :: OfProgramme(cfg, roles, o, x)
  {
    hide OfProgramme;
  }

  /** A run that reaches a decryptor which is locked and bound to a stream, with
      tables that keep the PIDs to their roles. */
  lemma SomeRunEndsLocked()
    ensures exists cfg: Config, roles: Roles, data: seq<byte>, pid: Pid, id: nat ::
      var s := Puts(cfg, Called(Session(NEW_STATE, 0, 0, []), [], 0), [data], 0).session.core;
      Admitted(s) && GraphRuns.AllFit(roles, s.tables) && HoldsBack(s.links, pid, id)
  {
    hide *;
    var cfg := Card((n, d) => EcmReply(0, 0, NoKey()), n => Start(0));
    CardReply((n, d) => EcmReply(0, 0, NoKey()), n => Start(0));
    PaidFor();
    SampleSuits(cfg);
    var data := SampleBytes(AsIs(ClearPacket()), 1600);
    var id := LockedRun(cfg, SampleRoles, 1600, data);
  }

  /** A run after whose first put a decryptor has a cipher that was never started. */
  lemma SomeRunNeverStarts()
    ensures exists cfg: Config, data: seq<byte>, id: nat ::
      var r := PutMore(cfg, Called(Session(NEW_STATE, 0, 0, []), [], 0), data, 0);
      r.code == -8 && HasBroken(r.session.core, id)
  {
    hide *;
    var cfg := Card((n, d) => EcmReply(0, 0x0800, NoKey()), n => Start(-1));
    CardReply((n, d) => EcmReply(0, 0x0800, NoKey()), n => Start(-1));
    PaidFor();
    SampleSuits(cfg);
    StartStatus(-1);
    var y, n := AsIs(ClearPacket()), 1600;
    ItsParts();
    SampleFits(cfg, SampleRoles);
    SampleIsEnough(cfg, SampleRoles, y, n);
    SampleDoesNotStart(cfg);
    var data := SampleBytes(y, n);
    var id := FailedStartIsReached(cfg, SampleRoles, 188, Sample(), data, SamplePackets(y, n), [SYNC], []);
  }

  lemma StartStatus(status: int)
    ensures Start(status).status == status
  {
  }

  /** Another ECM, and a scrambled packet. */
  function NextBytes(y: Sent): seq<byte> {
    AirOf([AsIs(EcmPacket(2)), y]) + [SYNC]
  }

  lemma NextPackets(cfg: Config, roles: Roles, y: Sent)
    requires Suits(cfg, roles) && y == Encrypted(cfg)
    ensures var e := AsIs(EcmPacket(2));
      && Conveys(cfg, e, Closed(EcmHead(2))) && PidOf(e.clear) == MajorOf(cfg, Sample())
      && StreamPacket(cfg, roles, Sample(), y) && y.selector == 1
      && Holds(NextBytes(y), 188, [e, y], [SYNC]) && |NextBytes(y)| > 0 && NextBytes(y)[0] == SYNC
  {
    hide *;
    var e := AsIs(EcmPacket(2));
    Keys(cfg);
    EcmPackets(cfg, roles, 2);
    AsIsIsSent(EcmPacket(2));
    StreamPackets(cfg, roles, y);
    NextHolds(e, y);
    ItsClear(EcmPacket(2));
  }

  lemma ItsClear(p: Packet188)
    ensures AsIs(p).clear == p
  {
  }

  lemma NextHolds(e: Sent, y: Sent)
    requires e == AsIs(EcmPacket(2)) && OnAir(e)[0] == SYNC && OnAir(y)[0] == SYNC
    ensures Holds(NextBytes(y), 188, [e, y], [SYNC]) && |NextBytes(y)| > 0 && NextBytes(y)[0] == SYNC
  {
    hide OnAir, AirOf, Holds, EcmPacket, AsIs;
    AirHolds([e, y]);
    var s := NextBytes(y);
    assert s[188 * 0] == SYNC;
  }

  lemma NextFails(cfg: Config, o: Programme)
    requires cfg.hasCard && o == Sample() && cfg.ecm(1, [2]).status < 0
    ensures FailsOn(cfg, o, Closed(EcmHead(2)))
  {
    hide Sample, Closed, Tables.Body, SectionTheorems.Sendable;
    SampleEcm(1);
    SampleEcm(2);
    SampleSection();
  }

  lemma LostRun(cfg: Config, roles: Roles, n: nat, y: Sent, data: seq<byte>, o: Programme) returns (r: Called, next: seq<byte>)
    requires n >= 1600 && Suits(cfg, roles) && cfg.hasCard && cfg.init(1).status == 0
    requires cfg.ecm(0, [1]).status >= 0 && Purchased(cfg.ecm(0, [1]).returnCode) && cfg.ecm(1, [2]).status < 0
    requires y == Encrypted(cfg) && data == SampleBytes(y, n) && o == Sample()
    ensures r == Puts(cfg, Called(Session(NEW_STATE, 0, 0, []), [], 0), [data, next, []], 0)
    ensures r.code == -10 && Admitted(r.session.core) && |r.out| == n + 6
  {
    hide *;
    var xs := SampleIsOpened(cfg, roles, n, y, data, o);
    var r1 := OpenedRun(cfg, roles, o, data, xs);
    var id: nat :| WithDecryptor(cfg, roles, o, r1.session.core, id, true);
    var all, e := NextBytes(y), AsIs(EcmPacket(2));
    NextPackets(cfg, roles, y);
    NextFails(cfg, o);
    next := all[1..];
    assert r1.session.rest + next == all;
    assert [e, y] + [] == [e, y];
    var at := |data| - 1;
    KeptByte(y, n);
    FailedEcmEndsTheProgramme(cfg, roles, o, r1.session, id, e, Closed(EcmHead(2)), y, [], [SYNC], next, [], at, []);
    var r0 := Called(Session(NEW_STATE, 0, 0, []), [], 0);
    ThreePuts(cfg, r0, data, next, at, r1);
    r := Puts(cfg, r0, [data, next, []], 0);
  }

  lemma KeptByte(y: Sent, n: nat)
    ensures |SampleBytes(y, n)| >= 1
  {
    hide AirOf;
  }

  lemma OneFlat(a: seq<byte>)
    ensures Flatten([a]) == a
  {
    assert [a][1..] == [] && Flatten([a]) == a + Flatten([a][1..]);
  }

  /** Three puts, of which the first leaves one byte. */
  lemma ThreePuts(cfg: Config, r0: Called, a: seq<byte>, b: seq<byte>, at: nat, r1: Called)
    requires |a| == at + 1 && |r0.session.rest| == 0 && r1 == Puts(cfg, r0, [a], 0) && |r1.session.rest| == 1
    ensures var r2 := PutCall(cfg, r1.session, b, at);
      var r3 := PutMore(cfg, r2, [], at);
      var r := Puts(cfg, r0, [a, b, []], 0);
      |r2.session.rest| == 1 + |b| ==> r.session == r3.session && r.code == r3.code && r.out == r1.out + r3.out
  {
    hide PutCall, Puts;
    var none: seq<byte> := [];
    PutsInTwo(cfg, r0, [a], [b, none], 0);
    assert [a] + [b, none] == [a, b, none];
    OneFlat(a);
    OneFlat(b);
    LastPut(cfg, r1, [b, none], |a|);
    LastPut(cfg, r1, [b], |a|);
    NothingPut(cfg, r1, |a|);
    assert [b, none][..1] == [b] && [b][..0] == [];
    var r2 := PutCall(cfg, r1.session, b, at);
    var r3 := PutMore(cfg, r2, none, at);
    assert r1.out + r2.out + PutCall(cfg, r2.session, none, at).out == r1.out + r3.out;
  }

  /** A run in which the card opens a programme and fails on its second ECM: the
      third put is left with a decryption error while nothing is searched for, so
      that nothing more comes out of it. */
  lemma SomeRunLosesItsKey()
    ensures exists cfg: Config, chunks: seq<seq<byte>> ::
      var r := Puts(cfg, Called(Session(NEW_STATE, 0, 0, []), [], 0), chunks, 0);
      r.code == -10 && Admitted(r.session.core) && |chunks| == 3 && |r.out| > 1600
  {
    hide *;
    var ecm: (nat, seq<byte>) -> EcmReply := (n, d) => EcmReply(if n == 0 then 0 else -1, 0x0800, NoKey());
    var cfg := Card(ecm, n => Start(0));
    CardReply(ecm, n => Start(0));
    PaidFor();
    SampleSuits(cfg);
    StartStatus(0);
    var y, n := Encrypted(cfg), 1600;
    var data := SampleBytes(y, n);
    var r, next := LostRun(cfg, SampleRoles, n, y, data, Sample());
    var chunks := [data, next, []];
  }
}
