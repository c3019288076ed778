// What the section parser computes, as functions on byte strings: the
// reassembly of PSI sections from transport packet payloads (section 2.4.4 of
// ISO/IEC 13818-1). The class in SectionParser.dfy refines these functions.

module SectionModel {
  import opened Bytes
  import Crc32

  const MAX_RAW_SECTION_SIZE := 4100

  const ERROR_INVALID_PARAM := -1
  const ERROR_INVALID_TS_PID := -3
  const ERROR_NO_SECTION_DATA := -4
  const WARN_CRC_MISMATCH := 1
  const WARN_LENGTH_MISMATCH := 2

  datatype Option<T> = None | Some(value: T)

  /** A transport packet as the parser sees it. */
  datatype Packet = Packet(pid: nat, start: bool, payload: seq<byte>)

  // ------------------------------------------------------- section headers

  /** TS_SECTION_HEADER */
  datatype Header = Header(
    tableId: int,
    syntax: int,
    privateIndicator: int,
    sectionLength: int,
    tableIdExtension: int,
    versionNumber: int,
    currentNext: int,
    sectionNumber: int,
    lastSectionNumber: int)

  const BLANK_HEADER := Header(0, 0, 0, 0, 0, 0, 0, 0, 0)

  /** Long-format sections carry a five byte extension and a CRC. */
  predicate LongForm(raw: seq<byte>)
    requires |raw| >= 3
  {
    raw[1] as int >= 128
  }

  function SectionLength(raw: seq<byte>): (n: int)
    requires |raw| >= 3
    ensures 0 <= n <= 4095
  {
    Be16(raw[1], raw[2]) % 4096
  }

  /** The bytes needed before the header has been read whole. */
  predicate HeaderKnown(raw: seq<byte>) {
    |raw| >= 3 && (!LongForm(raw) || |raw| >= 8)
  }

  function TotalLength(raw: seq<byte>): (n: int)
    requires |raw| >= 3
    ensures 3 <= n <= 4098
  {
    SectionLength(raw) + 3
  }

  predicate Complete(raw: seq<byte>) {
    HeaderKnown(raw) && TotalLength(raw) <= |raw|
  }

  /** Offset of the section data behind the header. */
  function DataOffset(raw: seq<byte>): nat
    requires |raw| >= 3
  {
    if LongForm(raw) then 8 else 3
  }

  /** extract_ts_section_header, on a string long enough for its format. */
  function ParseHeader(raw: seq<byte>): Header
    requires HeaderKnown(raw)
  {
    var short := Header(
                   raw[0] as int, raw[1] as int / 128, raw[1] as int / 64 % 2, SectionLength(raw), 0, 0, 0, 0, 0);
    if !LongForm(raw) then short
    else
      short.(
      tableIdExtension := Be16(raw[3], raw[4]),
      versionNumber := raw[5] as int / 2 % 32,
      currentNext := raw[5] as int % 2,
      sectionNumber := raw[6] as int,
      lastSectionNumber := raw[7] as int)
  }

  // ----------------------------------------------------- the parser's state

  /** Counters of TS_SECTION_PARSER_STAT. */
  datatype Stat = Stat(total: int, unique: int, error: int)

  /** What a parser has in hand: the unfinished section ([] when there is
      none), the last accepted section, and the sections not fetched yet. */
  datatype Parser = Parser(
    pid: int,
    work: seq<byte>,
    last: Option<seq<byte>>,
    queue: seq<seq<byte>>,
    stat: Stat)

  const NEW_PARSER := Parser(-1, [], None, [], Stat(0, 0, 0))

  /** The section at the start of a string that holds it whole; what follows
      it is dropped. */
  function First(all: seq<byte>): (raw: seq<byte>)
    requires Complete(all)
    ensures 3 <= |raw| <= |all| && raw <= all
  {
    all[..TotalLength(all)]
  }

  predicate Sound(raw: seq<byte>)
    requires |raw| >= 3
  {
    !LongForm(raw) || Crc32.Crc(raw) == 0
  }

  /** A complete section is dropped with an error, dropped as a repetition of
      the last accepted one, or accepted. */
  function Finish(s: Parser, raw: seq<byte>): (Parser, int)
    requires |raw| >= 3
  {
    if !Sound(raw) then
      (s.(stat := s.stat.(total := s.stat.total + 1, error := s.stat.error + 1)), WARN_CRC_MISMATCH)
    else if s.last == Some(raw) then
      (s.(stat := s.stat.(total := s.stat.total + 1)), 0)
    else
      (s.(last := Some(raw), queue := s.queue + [raw],
          stat := s.stat.(total := s.stat.total + 1, unique := s.stat.unique + 1)), 0)
  }

  /** put_exclude_section_start */
  function Continue(s: Parser, data: seq<byte>): (Parser, int) {
    if s.work == [] then (s, 0)
    else
      var all := s.work + data;
      if Complete(all) then Finish(s.(work := []), First(all)) else (s.(work := all), 0)
  }

  /** A section that is still unfinished when another one starts is an error. */
  function Abandon(s: Parser, code: int): (Parser, int) {
    if s.work == [] then (s, code)
    else
      (s.(work := [], stat := s.stat.(total := s.stat.total + 1, error := s.stat.error + 1)), WARN_LENGTH_MISMATCH)
  }

  /** The sections that start in a payload, from a section boundary on. */
  function Starts(s: Parser, data: seq<byte>, code: int): (Parser, int)
    decreases |data|
  {
    if !Complete(data) then (s.(work := data), 0)
    else
      var raw := First(data);
      var (s', c) := Finish(s, raw);
      var code' := if c == WARN_CRC_MISMATCH then c else code;
      var rest := data[|raw|..];
      if rest != [] && rest[0] != 0xff then Starts(s', rest, code') else (s', code')
  }

  /** put_include_section_start */
  function Start(s: Parser, data: seq<byte>): (Parser, int)
    requires data != []
  {
    var pointer := data[0] as int;
    if 1 + pointer >= |data| then Abandon(s, 0)
    else
      var (s1, c1) := if pointer > 0 then Continue(s, data[1..1 + pointer]) else (s, 0);
      var (s2, c2) := Abandon(s1, c1);
      Starts(s2, data[1 + pointer..], c2)
  }

  /** put_ts_section_parser */
  function Put(s: Parser, p: Packet): (Parser, int) {
    if p.payload == [] then (s, ERROR_INVALID_PARAM)
    else if s.pid >= 0 && s.pid != p.pid then (s, ERROR_INVALID_TS_PID)
    else
      var s0 := s.(pid := p.pid);
      if p.start then Start(s0, p.payload) else Continue(s0, p.payload)
  }

  /** get_ts_section_parser: the oldest section not fetched yet. */
  function Get(s: Parser): (Parser, Option<seq<byte>>) {
    if s.queue == [] then (s, None) else (s.(queue := s.queue[1..]), Some(s.queue[0]))
  }
}
