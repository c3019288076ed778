// Tables written as the broadcaster writes them (section 2.4.4 of
// ISO/IEC 13818-1) are read back entry for entry.

module TableTheorems {
  import opened Bytes
  import opened SectionModel
  import opened PidGraph
  import opened Tables

  // ------------------------------------------------------------ writing

  /** Two bytes with a PID in the low thirteen bits. */
  predicate IsPid(hi: byte, lo: byte, pid: Pid) {
    Be16(hi, lo) % 0x2000 == pid
  }

  /** A descriptor: its tag, its length, its data. */
  datatype Descriptor = Descriptor(tag: byte, length: byte, data: seq<byte>)

  predicate Proper(d: Descriptor) {
    |d.data| == d.length as int
  }

  function Written(ds: seq<Descriptor>): seq<byte> {
    if ds == [] then [] else [ds[0].tag, ds[0].length] + ds[0].data + Written(ds[1..])
  }

  /** The descriptor names an ECM or EMM PID of this system. */
  predicate Names(d: Descriptor, system: int) {
    d.tag == 0x09 && |d.data| >= 4 && Be16(d.data[0], d.data[1]) == system
  }

  /** The PID that the first such descriptor names, or 0. */
  function Named(ds: seq<Descriptor>, system: int): Pid {
    if ds == [] then 0
    else if Names(ds[0], system) then Be16(ds[0].data[2], ds[0].data[3]) % 0x2000
    else Named(ds[1..], system)
  }

  lemma SplitData(d: Descriptor, rest: seq<byte>)
    ensures var data := [d.tag, d.length] + d.data + rest;
      var tail := data[2..];
      && data[0] == d.tag && data[1] == d.length && tail[|d.data|..] == rest
      && (|d.data| >= 4 ==> tail[0] == d.data[0] && tail[1] == d.data[1] && tail[2] == d.data[2] && tail[3] == d.data[3])
  {
    assert ([d.tag, d.length] + d.data + rest)[2..] == d.data + rest;
  }

  lemma FindCaStep(d: Descriptor, rest: seq<byte>, system: int)
    requires Proper(d)
    ensures FindCa([d.tag, d.length] + d.data + rest, system)
         == if Names(d, system) then Be16(d.data[2], d.data[3]) % 0x2000 else FindCa(rest, system)
  {
    hide Be16;
    SplitData(d, rest);
    var data := [d.tag, d.length] + d.data + rest;
    var tail := data[2..];
  }

  /** The search finds what the first matching descriptor names. */
  lemma {:induction false} FindCaFindsNamed(ds: seq<Descriptor>, system: int)
    requires forall i | 0 <= i < |ds| :: Proper(ds[i])
    ensures FindCa(Written(ds), system) == Named(ds, system)
    decreases |ds|
  {
    hide FindCa, Names;
    if ds == [] {
      NothingToFind(system);
    } else {
      FindCaStep(ds[0], Written(ds[1..]), system);
      FindCaFindsNamed(ds[1..], system);
    }
  }

  lemma NothingToFind(system: int)
    ensures FindCa([], system) == 0
  {
  }

  // ------------------------------------------------------------------ PAT

  /** Four bytes of a PAT stand for this entry. */
  predicate PatBytes(b: seq<byte>, e: PatEntry) {
    |b| == 4 && Be16(b[0], b[1]) == e.number && IsPid(b[2], b[3], e.pid)
  }

  ghost predicate PatBody(body: seq<byte>, entries: seq<PatEntry>)
    decreases |entries|
  {
    if entries == [] then body == []
    else |body| >= 4 && PatBytes(body[..4], entries[0]) && PatBody(body[4..], entries[1..])
  }

  lemma {:induction false} PatIsReadBack(body: seq<byte>, entries: seq<PatEntry>)
    requires PatBody(body, entries)
    ensures ReadPat(body) == entries
    decreases |entries|
  {
    if entries != [] {
      PatIsReadBack(body[4..], entries[1..]);
    }
  }

  // ------------------------------------------------------------------ PMT

  /** A stream of a PMT as it is announced. */
  datatype Announced = Announced(kind: byte, pid: Pid, ds: seq<Descriptor>)

  predicate Announceable(a: Announced) {
    (forall i | 0 <= i < |a.ds| :: Proper(a.ds[i])) && |Written(a.ds)| < 4096
  }

  /** The bytes of an announced stream. */
  predicate StreamBytes(b: seq<byte>, a: Announced)
    requires Announceable(a)
  {
    && |b| == 5 + |Written(a.ds)| && b[0] == a.kind && IsPid(b[1], b[2], a.pid)
    && Be16(b[3], b[4]) % 4096 == |Written(a.ds)| && b[5..] == Written(a.ds)
  }

  ghost predicate StreamLoop(body: seq<byte>, streams: seq<Announced>)
    decreases |streams|
  {
    if streams == [] then body == []
    else
      && Announceable(streams[0])
      && var n := 5 + |Written(streams[0].ds)|;
      n <= |body| && StreamBytes(body[..n], streams[0]) && StreamLoop(body[n..], streams[1..])
  }

  function Entries(streams: seq<Announced>, system: int): seq<EsEntry> {
    if streams == [] then []
    else [EsEntry(streams[0].kind as int, streams[0].pid, Named(streams[0].ds, system))] + Entries(streams[1..], system)
  }

  lemma StreamStep(a: Announced, b: seq<byte>, rest: seq<byte>, system: int)
    requires Announceable(a) && StreamBytes(b, a) && |rest| >= 4
    ensures ReadStreams(b + rest, system)
         == match ReadStreams(rest, system)
            case None => None
            case Some(ess) => Some([EsEntry(a.kind as int, a.pid, FindCa(Written(a.ds), system))] + ess)
  {
    hide FindCa, Be16, Written;
    var full, n := b + rest, |b|;
    assert full[0] == b[0] && full[1] == b[1] && full[2] == b[2] && full[3] == b[3] && full[4] == b[4];
    assert full[5..n] == b[5..] && full[n..] == rest;
  }

  /** The stream loop, with the CRC still behind it. */
  lemma {:induction false} StreamsAreReadBack(body: seq<byte>, crc: seq<byte>, streams: seq<Announced>, system: int)
    requires |crc| == 4 && StreamLoop(body, streams)
    ensures ReadStreams(body + crc, system) == Some(Entries(streams, system))
    decreases |streams|
  {
    hide FindCa, ReadStreams, StreamBytes, Written, Announceable;
    if streams == [] {
      assert body + crc == crc;
      OnlyCrc(crc, system);
    } else {
      var a := streams[0];
      var n := 5 + |Written(a.ds)|;
      assert body + crc == body[..n] + (body[n..] + crc);
      StreamStep(a, body[..n], body[n..] + crc, system);
      FindsInAnnounced(a, system);
      StreamsAreReadBack(body[n..], crc, streams[1..], system);
    }
  }

  lemma OnlyCrc(crc: seq<byte>, system: int)
    requires |crc| == 4
    ensures ReadStreams(crc, system) == Some([])
  {
  }

  lemma FindsInAnnounced(a: Announced, system: int)
    requires Announceable(a)
    ensures FindCa(Written(a.ds), system) == Named(a.ds, system)
  {
    hide FindCa, Named;
    FindCaFindsNamed(a.ds, system);
  }

  /** A PMT section: header, PCR PID, program descriptors, stream loop, CRC. */
  ghost predicate PmtBytes(raw: seq<byte>, ds: seq<Descriptor>, streams: seq<Announced>, crc: seq<byte>) {
    && |raw| >= 16 && raw[1] as int >= 128 && |crc| == 4
    && (forall i | 0 <= i < |ds| :: Proper(ds[i])) && |Written(ds)| < 4096
    && var n := 12 + |Written(ds)|;
    && n + 4 <= |raw| && Be16(raw[10], raw[11]) % 4096 == |Written(ds)| && raw[12..n] == Written(ds)
    && raw[|raw| - 4..] == crc && StreamLoop(raw[n..|raw| - 4], streams)
  }

  /** A well-formed PMT section gives the ECM PID of the program and, for every
      stream in order, its type, its PID and its own ECM PID. */
  lemma PmtIsReadBack(raw: seq<byte>, ds: seq<Descriptor>, streams: seq<Announced>, crc: seq<byte>, system: int)
    requires PmtBytes(raw, ds, streams, crc)
    ensures ReadPmt(raw, system) == PmtRead(Named(ds, system), Entries(streams, system))
  {
    hide FindCa, ReadStreams, StreamLoop;
    var d := Data(raw);
    assert d == raw[8..];
    var len, n := |Written(ds)|, 12 + |Written(ds)|;
    assert d[2] == raw[10] && d[3] == raw[11];
    assert d[4..4 + len] == raw[12..n];
    assert d[4 + len..] == raw[n..|raw| - 4] + crc;
    FindCaFindsNamed(ds, system);
    StreamsAreReadBack(raw[n..|raw| - 4], crc, streams, system);
  }

  /** Up to four bytes between the streams and the CRC are not read. */
  lemma SpareBytes(spare: seq<byte>, crc: seq<byte>, system: int)
    requires |spare| <= 4 && |crc| == 4
    ensures ReadStreams(spare + crc, system) == Some([])
  {
  }

  /** Program descriptors that reach into the CRC make the whole section broken, and
      only they do. */
  lemma LongDescriptors(raw: seq<byte>, system: int)
    requires |raw| >= 12 && raw[1] as int >= 128
    ensures ReadPmt(raw, system) == BrokenPmt <==> 12 + (raw[10] as int % 16 * 256 + raw[11] as int) > |raw| - 4
  {
    hide FindCa, ReadStreams;
    var d := Data(raw);
    assert d == raw[8..] && d[2] == raw[10] && d[3] == raw[11];
    assert (raw[10] as int * 256 + raw[11] as int) % 4096 == raw[10] as int % 16 * 256 + raw[11] as int;
  }

  // ------------------------------------------------------------------ CAT

  /** What is left of a section without its header and its CRC. */
  lemma BodyIsInside(raw: seq<byte>)
    ensures |raw| >= 12 && raw[1] as int >= 128 ==> Body(raw) == raw[8..|raw| - 4]
    ensures |raw| >= 7 && raw[1] as int < 128 ==> Body(raw) == raw[3..|raw| - 4]
  {
  }

  /** A CAT section: header, descriptors, CRC. */
  ghost predicate CatBytes(raw: seq<byte>, ds: seq<Descriptor>) {
    && |raw| >= 12 && raw[1] as int >= 128 && (forall i | 0 <= i < |ds| :: Proper(ds[i]))
    && raw[8..|raw| - 4] == Written(ds)
  }

  lemma CatIsReadBack(raw: seq<byte>, ds: seq<Descriptor>, system: int)
    requires CatBytes(raw, ds)
    ensures FindCa(Body(raw), system) == Named(ds, system)
  {
    hide FindCa, Body;
    BodyIsInside(raw);
    FindCaFindsNamed(ds, system);
  }

  // -------------------------------------------------------------- the loops

  lemma ReadPatStep(body: seq<byte>, head: nat, before: seq<PatEntry>)
    requires head + 4 <= |body|
    ensures var e := PatEntry(Be16(body[head], body[head + 1]), Pid13(body[head + 2], body[head + 3]));
      before + ReadPat(body[head..]) == (before + [e]) + ReadPat(body[head + 4..])
  {
    hide Pid13, Be16;
    assert body[head..][4..] == body[head + 4..];
  }

  /** The loop of proc_pat over the entries of a section. */
  method ReadPatEntries(raw: seq<byte>) returns (entries: seq<PatEntry>)
    requires |raw| >= 3
    ensures entries == ReadPat(Body(raw))
  {
    hide ReadPat, Body, Pid13, Be16;
    var body := Body(raw);
    entries := [];
    var head := 0;
    while head + 4 <= |body|
      invariant head <= |body| && ReadPat(body) == entries + ReadPat(body[head..])
      decreases |body| - head
    {
      ReadPatStep(body, head, entries);
      var number := Be16(body[head], body[head + 1]);
      var pid := Pid13(body[head + 2], body[head + 3]);
      entries := entries + [PatEntry(number, pid)];
      head := head + 4;
    }
    ReadPatEnds(body[head..]);
  }

  lemma ReadPatEnds(body: seq<byte>)
    requires |body| < 4
    ensures ReadPat(body) == []
  {
  }

  /** Entries read so far, and what reading the rest comes to. */
  function Joined(ess: seq<EsEntry>, rest: Option<seq<EsEntry>>): Option<seq<EsEntry>> {
    if rest.None? then None else Some(ess + rest.value)
  }

  lemma ReadStreamsStep(d: seq<byte>, head: nat, system: int, ess: seq<EsEntry>)
    requires head + 9 <= |d|
    ensures var length := Be16(d[head + 3], d[head + 4]) % 4096;
      if head + 5 + length > |d| then Joined(ess, ReadStreams(d[head..], system)) == None
      else
        var es := EsEntry(d[head] as int, Pid13(d[head + 1], d[head + 2]), FindCa(d[head + 5..head + 5 + length], system));
        Joined(ess, ReadStreams(d[head..], system)) == Joined(ess + [es], ReadStreams(d[head + 5 + length..], system))
  {
    hide FindCa, Pid13, Be16;
    var full := d[head..];
    var length := Be16(full[3], full[4]) % 4096;
    if head + 5 + length <= |d| {
      assert full[5..5 + length] == d[head + 5..head + 5 + length];
      assert full[5 + length..] == d[head + 5 + length..];
      var rest := ReadStreams(full[5 + length..], system);
      if rest.Some? {
        var es := EsEntry(full[0] as int, Pid13(full[1], full[2]), FindCa(full[5..5 + length], system));
        assert ess + ([es] + rest.value) == ess + [es] + rest.value;
      }
    }
  }

  lemma ReadStreamsEnds(rest: seq<byte>, system: int, ess: seq<EsEntry>)
    requires |rest| < 9
    ensures Joined(ess, ReadStreams(rest, system)) == Some(ess)
  {
    assert ess + [] == ess;
  }

  /** The loop of proc_pmt over the streams; d is the section behind its header
      and head the end of the program descriptors. */
  method ReadStreamLoop(d: seq<byte>, from: nat, system: int) returns (r: Option<seq<EsEntry>>)
    requires from <= |d|
    ensures r == ReadStreams(d[from..], system)
  {
    hide FindCa, ReadStreams, Pid13, Be16;
    var head := from;
    var ess: seq<EsEntry> := [];
    NothingJoined(ReadStreams(d[head..], system));
    while head + 9 <= |d|
      invariant from <= head <= |d|
      invariant ReadStreams(d[from..], system) == Joined(ess, ReadStreams(d[head..], system))
      decreases |d| - head
    {
      ReadStreamsStep(d, head, system, ess);
      var kind := d[head] as int;
      var pid := Pid13(d[head + 1], d[head + 2]);
      var length := Be16(d[head + 3], d[head + 4]) % 4096;
      head := head + 5;
      if head + length > |d| {
        return None;
      }
      var ecm := FindCaDescriptorPid(d[head..head + length], system);
      ess := ess + [EsEntry(kind, pid, ecm)];
      head := head + length;
    }
    ReadStreamsEnds(d[head..], system, ess);
    return Some(ess);
  }

  lemma NothingJoined(rest: Option<seq<EsEntry>>)
    ensures Joined([], rest) == rest
  {
    assert rest.Some? ==> [] + rest.value == rest.value;
  }
}
