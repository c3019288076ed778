// The packet loop over the bytes in hand: finding the next packet, and going
// from packet to packet until too few bytes are left.

module Framing {
  import opened Bytes
  import opened SectionModel
  import opened PidGraph
  import opened Core
  import WorkBuffers

  // --------------------------------------------------------------- resync

  predicate SyncAt(buf: seq<byte>, q: int, unit: nat, i: nat) {
    0 <= q + unit * i < |buf| && buf[q + unit * i] == SYNC
  }

  /** Eight sync bytes a unit apart, and the eighth unit complete. */
  predicate Synced(buf: seq<byte>, q: int, unit: nat) {
    0 <= q && q + unit * 8 <= |buf| && forall i | 0 <= i < 8 :: SyncAt(buf, q, unit, i)
  }

  /** resync: the first place from pos on that is in step. */
  function Resync(buf: seq<byte>, pos: nat, unit: nat): (r: Option<nat>)
    ensures r.Some? ==>
      && pos <= r.value && Synced(buf, r.value, unit)
      && forall q | pos <= q < r.value :: !Synced(buf, q, unit)
    ensures r.None? ==> forall q | pos <= q :: !Synced(buf, q, unit)
    decreases |buf| - pos
  {
    if pos + unit * 8 > |buf| then None
    else if Synced(buf, pos, unit) then Some(pos)
    else if pos >= |buf| then None
    else Resync(buf, pos + 1, unit)
  }

  /** Eight sync bytes, each a unit behind the one before, the last unit whole. */
  predicate EightInStep(s: seq<byte>, unit: nat) {
    8 * unit <= |s| && forall i | 0 <= i < 8 :: 0 <= unit * i < |s| && s[unit * i] == 0x47
  }

  /** Behind bytes without a sync byte the first packet is found exactly if eight
      units follow whole, each of them starting with one. */
  lemma FoundBehindGarbage(garbage: seq<byte>, rest: seq<byte>, unit: nat)
    requires 0 < unit && forall i | 0 <= i < |garbage| :: garbage[i] != 0x47
    ensures Resync(garbage + rest, 0, unit) == Some(|garbage|) <==> EightInStep(rest, unit)
  {
    hide Resync;
    var buf, n := garbage + rest, |garbage|;
    forall q | 0 <= q < n ensures !Synced(buf, q, unit) {
      assert buf[q] == garbage[q];
      SyncedStarts(buf, q, unit);
    }
    SyncedBehind(garbage, rest, unit);
  }

  lemma SyncedStarts(buf: seq<byte>, q: nat, unit: nat)
    requires q < |buf|
    ensures Synced(buf, q, unit) ==> buf[q] == SYNC
  {
    assert Synced(buf, q, unit) ==> SyncAt(buf, q, unit, 0);
  }

  lemma SyncedBehind(garbage: seq<byte>, rest: seq<byte>, unit: nat)
    requires 0 < unit
    ensures Synced(garbage + rest, |garbage|, unit) <==> EightInStep(rest, unit)
  {
    var buf, n := garbage + rest, |garbage|;
    if Synced(buf, n, unit) {
      forall i | 0 <= i < 8 ensures 0 <= unit * i < |rest| && rest[unit * i] == 0x47 {
        assert SyncAt(buf, n, unit, i);
        InReach(0, unit, i, |rest|);
        assert buf[n + unit * i] == rest[unit * i];
      }
    }
    if EightInStep(rest, unit) {
      forall i | 0 <= i < 8 ensures SyncAt(buf, n, unit, i) {
        assert 0 <= unit * i < |rest| && buf[n + unit * i] == rest[unit * i];
      }
    }
  }

  // ----------------------------------------------------------- the next packet

  /** Where the next packet starts. Two sync bytes a unit apart are enough to
      go on; after anything else eight are asked for. */
  function Cursor(buf: seq<byte>, unit: nat): (r: Option<nat>)
    requires 188 <= unit < |buf|
    ensures r.Some? ==>
      && r.value + unit < |buf| && buf[r.value] == SYNC && buf[r.value + unit] == SYNC
  {
    if buf[0] == SYNC && buf[unit] == SYNC then Some(0)
    else
      var r := Resync(buf, 0, unit);
      assert r.Some? ==> SyncAt(buf, r.value, unit, 0) && SyncAt(buf, r.value, unit, 1);
      r
  }

  /** A packet in the output, and the place in the stream it came from. */
  datatype Emitted = Emitted(at: nat, packet: Packet188)

  /** One turn of the loop: it halts for want of bytes, goes on behind the
      first past bytes, or is left early with the bytes rest still in hand. The
      packet starts skip bytes ahead. */
  datatype Turn =
    | Halt
    | Go(state: State, skip: nat, out: Option<Packet188>, past: nat, last: Option<int>)
    | Leave(state: State, skip: nat, out: Option<Packet188>, rest: seq<byte>, code: int)

  function TurnOf(cfg: Config, unit: nat, s: State, buf: seq<byte>): (t: Turn)
    requires 188 <= unit
    ensures t.Go? ==> t.skip < t.past <= |buf|
    ensures t.Leave? ==> |t.rest| == |buf| - t.skip
  {
    if |buf| <= unit || Cursor(buf, unit).None? then Halt
    else
      var q := Cursor(buf, unit).value;
      match Handle(cfg, s, buf[q..q + 188])
      case Skip => Go(s, q, None, q + 1, None)
      case Next(s', out, code) => Go(s', q, out, q + unit, code)
      case Stop(s', out, held, code) => Leave(s', q, out, held + buf[q + 188..], code)
  }

  lemma TurnUnfolds(cfg: Config, unit: nat, s: State, buf: seq<byte>)
    requires 188 <= unit < |buf|
    ensures var t := TurnOf(cfg, unit, s, buf);
      if Cursor(buf, unit).None? then t == Halt
      else
        var q := Cursor(buf, unit).value;
        match Handle(cfg, s, buf[q..q + 188])
        case Skip => t == Go(s, q, None, q + 1, None)
        case Next(s', out, code) => t == Go(s', q, out, q + unit, code)
        case Stop(s', out, held, code) => t == Leave(s', q, out, held + buf[q + 188..], code)
  {
    hide Handle, Cursor;
  }

  /** What a run of the loop comes to: the state, the packets appended to the
      output, the bytes kept for the next call, the code it was left with if it
      was left early, and the last code that there was. */
  datatype Scanned = Scanned(state: State, out: seq<Emitted>, rest: seq<byte>, stop: Option<int>, code: Option<int>)

  /** The later of two codes. */
  function Latest(before: Option<int>, code: Option<int>): Option<int> {
    if code.Some? then code else before
  }

  /** What comes to r after this output and this code. */
  function After(out: seq<Emitted>, code: Option<int>, r: Scanned): Scanned {
    r.(out := out + r.out, code := Latest(code, r.code))
  }

  lemma AfterAfter(a: seq<Emitted>, c: Option<int>, b: seq<Emitted>, d: Option<int>, r: Scanned)
    ensures After(a, c, After(b, d, r)) == After(a + b, Latest(c, d), r)
  {
    assert a + (b + r.out) == a + b + r.out;
  }

  function Emit(at: nat, out: Option<Packet188>): seq<Emitted> {
    if out.Some? then [Emitted(at, out.value)] else []
  }

  /** proc_arib_std_b25 on the bytes buf, of which the first is byte number at
      of the stream. */
  function Scan(cfg: Config, unit: nat, s: State, buf: seq<byte>, at: nat): (r: Scanned)
    requires 188 <= unit
    ensures |r.rest| <= |buf|
    decreases |buf|
  {
    match TurnOf(cfg, unit, s, buf)
    case Halt => Scanned(s, [], buf, None, None)
    case Go(s', skip, out, past, code) =>
      After(Emit(at + skip, out), code, Scan(cfg, unit, s', buf[past..], at + past))
    case Leave(s', skip, out, rest, code) => Scanned(s', Emit(at + skip, out), rest, Some(code), Some(code))
  }

  // ------------------------------------------------------------- chunking

  lemma SyncedExtends(a: seq<byte>, b: seq<byte>, q: nat, unit: nat)
    requires 0 < unit && q + unit * 8 <= |a|
    ensures Synced(a + b, q, unit) <==> Synced(a, q, unit)
  {
    forall i | 0 <= i < 8 ensures SyncAt(a + b, q, unit, i) <==> SyncAt(a, q, unit, i) {
      InReach(q, unit, i, |a|);
    }
  }

  lemma InReach(q: nat, unit: nat, i: nat, size: nat)
    requires i < 8 && 0 < unit && q + unit * 8 <= size
    ensures q + unit * i < size
  {
    assert unit * i + unit * (8 - i) == unit * 8 && unit * (8 - i) > 0;
  }

  /** The next packet is found the same way whatever follows later. */
  lemma CursorExtends(a: seq<byte>, b: seq<byte>, unit: nat)
    requires 188 <= unit < |a| && Cursor(a, unit).Some?
    ensures Cursor(a + b, unit) == Cursor(a, unit)
  {
    hide Synced, SyncAt;
    var c := a + b;
    if !(a[0] == SYNC && a[unit] == SYNC) {
      var q := Cursor(a, unit).value;
      SyncedFits(a, q, unit);
      SyncedExtends(a, b, q, unit);
      forall p | 0 <= p < q ensures !Synced(c, p, unit) {
        SyncedExtends(a, b, p, unit);
      }
    }
  }

  lemma SyncedFits(a: seq<byte>, q: nat, unit: nat)
    requires Synced(a, q, unit)
    ensures q + unit * 8 <= |a|
  {
  }

  /** A turn that does not halt is the same whatever follows later. */
  lemma TurnExtends(cfg: Config, unit: nat, s: State, a: seq<byte>, b: seq<byte>)
    requires 188 <= unit && !TurnOf(cfg, unit, s, a).Halt?
    ensures var t := TurnOf(cfg, unit, s, a);
      && (t.Go? ==> TurnOf(cfg, unit, s, a + b) == t && (a + b)[t.past..] == a[t.past..] + b)
      && (t.Leave? ==> TurnOf(cfg, unit, s, a + b) == t.(rest := t.rest + b))
  {
    hide Handle, Cursor;
    CursorExtends(a, b, unit);
    var q := Cursor(a, unit).value;
    assert (a + b)[q..q + 188] == a[q..q + 188];
    assert (a + b)[q + 188..] == a[q + 188..] + b;
  }

  /** The next processing call, after more bytes were appended. */
  function Continued(cfg: Config, unit: nat, r: Scanned, more: seq<byte>, at: nat): Scanned
    requires 188 <= unit
  {
    After(r.out, r.code, Scan(cfg, unit, r.state, r.rest + more, at))
  }

  /** Appending the bytes in two pieces, with a processing call after each,
      comes to the same as appending them at once, as long as the first call is
      not left early: the same state, the same packets from the same places,
      the same bytes kept. */
  lemma {:induction false} ScanInTwo(cfg: Config, unit: nat, s: State, a: seq<byte>, b: seq<byte>, at: nat)
    requires 188 <= unit && Scan(cfg, unit, s, a, at).stop.None?
    ensures var r := Scan(cfg, unit, s, a, at);
      Scan(cfg, unit, s, a + b, at) == Continued(cfg, unit, r, b, at + |a| - |r.rest|)
    decreases |a|
  {
    hide TurnOf, Scan;
    ScanUnfolds(cfg, unit, s, a, at);
    var t := TurnOf(cfg, unit, s, a);
    if t.Go? {
      TurnExtends(cfg, unit, s, a, b);
      ScanUnfolds(cfg, unit, s, a + b, at);
      ScanInTwo(cfg, unit, t.state, a[t.past..], b, at + t.past);
      var r := Scan(cfg, unit, t.state, a[t.past..], at + t.past);
      var r' := Scan(cfg, unit, r.state, r.rest + b, at + |a| - |r.rest|);
      AfterAfter(Emit(at + t.skip, t.out), t.last, r.out, r.code, r');
    } else {
      assert [] + Scan(cfg, unit, s, a + b, at).out == Scan(cfg, unit, s, a + b, at).out;
    }
  }

  lemma ScanUnfolds(cfg: Config, unit: nat, s: State, buf: seq<byte>, at: nat)
    requires 188 <= unit
    ensures var t, r := TurnOf(cfg, unit, s, buf), Scan(cfg, unit, s, buf, at);
      match t
      case Halt => r == Scanned(s, [], buf, None, None)
      case Go(s', skip, out, past, code) =>
        r == After(Emit(at + skip, out), code, Scan(cfg, unit, s', buf[past..], at + past))
      case Leave(s', skip, out, rest, code) => r == Scanned(s', Emit(at + skip, out), rest, Some(code), Some(code))
  {
    hide TurnOf;
  }

  /** A processing call after each piece; at bytes have come before them. */
  function Feed(cfg: Config, unit: nat, r: Scanned, chunks: seq<seq<byte>>, at: nat): Scanned
    requires 188 <= unit && |r.rest| <= at
    decreases |chunks|
  {
    if chunks == [] then r
    else Feed(cfg, unit, Continued(cfg, unit, r, chunks[0], at - |r.rest|), chunks[1..], at + |chunks[0]|)
  }

  lemma {:induction false} PrefixGoesOn(cfg: Config, unit: nat, s: State, a: seq<byte>, b: seq<byte>, at: nat)
    requires 188 <= unit && Scan(cfg, unit, s, a + b, at).stop.None?
    ensures Scan(cfg, unit, s, a, at).stop.None?
    decreases |a|
  {
    hide TurnOf;
    if !TurnOf(cfg, unit, s, a).Halt? {
      TurnExtends(cfg, unit, s, a, b);
      if TurnOf(cfg, unit, s, a).Go? {
        var t := TurnOf(cfg, unit, s, a);
        PrefixGoesOn(cfg, unit, t.state, a[t.past..], b, at + t.past);
      }
    }
  }

  /** Two further calls come to one, if the first of them is not left early. */
  lemma ContinuedTwice(cfg: Config, unit: nat, r: Scanned, a: seq<byte>, b: seq<byte>, at: nat)
    requires 188 <= unit && |r.rest| <= at && Scan(cfg, unit, r.state, r.rest + a, at - |r.rest|).stop.None?
    ensures var r1 := Continued(cfg, unit, r, a, at - |r.rest|);
      && |r1.rest| <= at + |a|
      && Continued(cfg, unit, r1, b, at + |a| - |r1.rest|) == Continued(cfg, unit, r, a + b, at - |r.rest|)
  {
    hide Scan;
    var x := Scan(cfg, unit, r.state, r.rest + a, at - |r.rest|);
    assert r.rest + (a + b) == r.rest + a + b;
    ScanInTwo(cfg, unit, r.state, r.rest + a, b, at - |r.rest|);
    AfterAfter(r.out, r.code, x.out, x.code, Scan(cfg, unit, x.state, x.rest + b, at + |a| - |x.rest|));
  }

  /** However the stream is cut into pieces, the same comes out as when it is
      processed whole, unless one of the calls is left early. It may begin with
      any state and any bytes still in hand, such as those after an early exit. */
  lemma {:induction false} ChunkingDoesNotMatter(cfg: Config, unit: nat, r: Scanned, chunks: seq<seq<byte>>, at: nat)
    requires 188 <= unit && |r.rest| <= at && chunks != []
    requires Scan(cfg, unit, r.state, r.rest + WorkBuffers.Flatten(chunks), at - |r.rest|).stop.None?
    ensures Feed(cfg, unit, r, chunks, at) == Continued(cfg, unit, r, WorkBuffers.Flatten(chunks), at - |r.rest|)
    decreases |chunks|
  {
    hide Scan;
    var b, rest := chunks[0], WorkBuffers.Flatten(chunks[1..]);
    assert r.rest + (b + rest) == r.rest + b + rest;
    PrefixGoesOn(cfg, unit, r.state, r.rest + b, rest, at - |r.rest|);
    var r1 := Continued(cfg, unit, r, b, at - |r.rest|);
    if chunks[1..] == [] {
      assert b + rest == b;
    } else {
      ScanInTwo(cfg, unit, r.state, r.rest + b, rest, at - |r.rest|);
      ContinuedTwice(cfg, unit, r, b, rest, at);
      ChunkingDoesNotMatter(cfg, unit, r1, chunks[1..], at + |b|);
    }
  }
}
