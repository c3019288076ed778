// Reading PAT, PMT and CAT sections.

module Tables {
  import opened Bytes
  import opened SectionModel
  import opened PidGraph

  const CA_DESCRIPTOR: byte := 0x09

  /** The data of a section behind its header, CRC included. */
  function Data(raw: seq<byte>): seq<byte>
    requires |raw| >= 3
  {
    if DataOffset(raw) <= |raw| then raw[DataOffset(raw)..] else []
  }

  /** The data without its last four bytes, the CRC. */
  function Body(raw: seq<byte>): seq<byte>
    requires |raw| >= 3
  {
    var d := Data(raw);
    if |d| >= 4 then d[..|d| - 4] else []
  }

  function Pid13(hi: byte, lo: byte): Pid {
    Be16(hi, lo) % 0x2000
  }

  /** find_ca_descriptor_pid: the PID in the first CA descriptor of the given
      system, or 0. */
  function FindCa(data: seq<byte>, system: int): Pid
    decreases |data|
  {
    if |data| < 2 then 0
    else
      var len, rest := data[1] as int, data[2..];
      if data[0] == CA_DESCRIPTOR && 4 <= len <= |rest| && Be16(rest[0], rest[1]) == system then Pid13(rest[2], rest[3])
      else if len > |rest| then 0
      else FindCa(rest[len..], system)
  }

  method FindCaDescriptorPid(data: seq<byte>, system: int) returns (pid: Pid)
    ensures pid == FindCa(data, system)
  {
    var head := 0;
    while head + 1 < |data|
      invariant 0 <= head <= |data|
      invariant FindCa(data, system) == FindCa(data[head..], system)
      decreases |data| - head
    {
      var tag, len := data[head], data[head + 1] as int;
      assert data[head..][2..] == data[head + 2..];
      head := head + 2;
      if tag == CA_DESCRIPTOR && len >= 4 && head + len <= |data| {
        var id := Be16(data[head], data[head + 1]);
        pid := Pid13(data[head + 2], data[head + 3]);
        if id == system {
          return;
        }
      }
      if head + len > |data| {
        return 0;
      }
      assert data[head..][len..] == data[head + len..];
      head := head + len;
    }
    pid := 0;
  }

  /** What reading a PMT comes to. A stream loop that runs past the end of the
      section reads bytes the section does not have. */
  datatype PmtRead = BrokenPmt | OverrunPmt | PmtRead(major: Pid, ess: seq<EsEntry>)

  /** The stream loop; full is the rest of the section with its CRC. */
  function ReadStreams(full: seq<byte>, system: int): Option<seq<EsEntry>>
    decreases |full|
  {
    if |full| < 9 then Some([])
    else
      var len := Be16(full[3], full[4]) % 4096;
      if 5 + len > |full| then None
      else
        var es := EsEntry(full[0] as int, Pid13(full[1], full[2]), FindCa(full[5..5 + len], system));
        match ReadStreams(full[5 + len..], system)
        case None => None
        case Some(rest) => Some([es] + rest)
  }

  function ReadPmt(raw: seq<byte>, system: int): PmtRead
    requires |raw| >= 3
  {
    var d := Data(raw);
    if |d| < 4 then OverrunPmt
    else
      var len := Be16(d[2], d[3]) % 4096;
      if 4 + len > |d| - 4 then BrokenPmt
      else
        match ReadStreams(d[4 + len..], system)
        case None => OverrunPmt
        case Some(ess) => PmtRead(FindCa(d[4..4 + len], system), ess)
  }

  function ReadPat(body: seq<byte>): seq<PatEntry>
    decreases |body|
  {
    if |body| < 4 then []
    else [PatEntry(Be16(body[0], body[1]), Pid13(body[2], body[3]))] + ReadPat(body[4..])
  }

  /** A section with less than its CRC behind the header asks for a negative
      number of programs, which cannot be allocated. */
  predicate PatTooShort(raw: seq<byte>)
    requires |raw| >= 3
  {
    |raw| - DataOffset(raw) - 4 <= -4
  }
}
