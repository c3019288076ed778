// What an answered ECM does to the keys of a decryptor, and when packets can be
// descrambled with them.

module EcmKeys {
  import opened Bytes
  import opened SectionModel
  import opened PidGraph
  import opened Core
  import Multi2
  import Tables

  /** The two keys that the card gives out once. */
  predicate Started(k: Multi2.Keys) {
    k.Has(Multi2.CBC_INIT_SET) && k.Has(Multi2.SYSTEM_KEY_SET)
  }

  /** The card was asked, and said that the programme is paid for. */
  predicate Answered(cfg: Config, s: State, id: nat, raw: seq<byte>)
    requires id in s.links.decs && |raw| >= 3
  {
    var reply := cfg.ecm(|s.ecmCalls|, Tables.Body(raw));
    && raw[0] == 0x82 && s.links.decs[id].locked == 0
    && Tables.Body(raw) != [] && reply.status >= 0 && Purchased(reply.returnCode)
  }

  lemma BitsStay(state: word)
    ensures (state | 4) & 1 == state & 1 && (state | 4) & 2 == state & 2 && (state | 4) & 4 == 4
    ensures (state & !4) & 1 == state & 1 && (state & !4) & 2 == state & 2
  {
  }

  lemma ScrambleKeyIsSet(k: Multi2.Keys, key: Key16)
    ensures var k' := k.WithScrambleKey(key);
      && k'.Has(Multi2.SCRAMBLE_KEY_SET) && Started(k') == Started(k) && k'.sys == k.sys && k'.cbcInit == k.cbcInit
      && k'.round == k.round
      && k'.oddWork == Multi2.Schedule(k.sys, Multi2.LoadBlock(key))
      && k'.evenWork == Multi2.Schedule(k.sys, Multi2.LoadBlock(key[8..]))
  {
    hide Multi2.Schedule, Multi2.LoadBlock;
    BitsStay(k.state);
  }

  /** After an answered ECM the decryptor has a cipher with the keys of the
      answer. It can descramble if and only if the cipher had been started
      before or is started now: once the card failed to start a new cipher, the
      cipher stays, and no later ECM starts it. */
  lemma AnsweredEcmGivesKeys(cfg: Config, s: State, id: nat, raw: seq<byte>, size: int)
    requires id in s.links.decs && |raw| >= 3 && Answered(cfg, s, id, raw)
    ensures var d, d' := s.links.decs[id], EcmSection(cfg, s, id, raw).0.links.decs[id];
      var start := cfg.init(|s.ecmCalls| + 1);
      && d'.m2.Some?
      && (d'.m2.value.Check(size) == 0 <==>
            size >= 1 && if d.m2.Some? then Started(d.m2.value) else start.status >= 0)
      && (Started(d'.m2.value) <==> if d.m2.Some? then Started(d.m2.value) else start.status >= 0)
    ensures var d, k := s.links.decs[id], EcmSection(cfg, s, id, raw).0.links.decs[id].m2.value;
      var key := cfg.ecm(|s.ecmCalls|, Tables.Body(raw)).key;
      var start := cfg.init(|s.ecmCalls| + 1);
      && (Started(k) ==>
            && k.oddWork == Multi2.Schedule(k.sys, Multi2.LoadBlock(key))
            && k.evenWork == Multi2.Schedule(k.sys, Multi2.LoadBlock(key[8..])))
      && (d.m2.Some? ==> k.sys == d.m2.value.sys && k.cbcInit == d.m2.value.cbcInit && k.round == d.m2.value.round)
      && (d.m2.None? && start.status >= 0 ==>
            k.sys == Multi2.LoadKey(start.systemKey) && k.cbcInit == Multi2.LoadBlock(start.initCbc) && k.round == cfg.round)
  {
    hide Multi2.Schedule, Multi2.LoadBlock, Multi2.LoadKey, Tables.Body;
    var d, d' := s.links.decs[id], EcmSection(cfg, s, id, raw).0.links.decs[id];
    var start := cfg.init(|s.ecmCalls| + 1);
    var reply := cfg.ecm(|s.ecmCalls|, Tables.Body(raw));
    Multi2.ReadyMeansAllKeysSet(d'.m2.value, size);
    if d.m2.Some? {
      ScrambleKeyIsSet(d.m2.value, reply.key);
    } else if start.status >= 0 {
      var k := StartedKeys(start, cfg.round);
      ScrambleKeyIsSet(k, reply.key);
    }
  }

  lemma StartedKeys(start: InitReply, round: int) returns (k: Multi2.Keys)
    ensures k == Multi2.NEW_KEYS.WithSystemKey(start.systemKey).WithInitCbc(start.initCbc).(round := round)
    ensures Started(k)
  {
    hide Multi2.LoadBlock, Multi2.LoadKey;
    k := Multi2.NEW_KEYS.WithSystemKey(start.systemKey).WithInitCbc(start.initCbc).(round := round);
    assert k.state == (0 as word | 2) | 1;
  }

  /** The decryptor has a cipher that takes packets. */
  predicate Ready(d: Dec) {
    d.m2.Some? && d.m2.value.Check(1) == 0
  }

  /** The card is asked about this section. */
  predicate Asked(s: State, id: nat, raw: seq<byte>)
    requires id in s.links.decs && |raw| >= 3
  {
    raw[0] == 0x82 && s.links.decs[id].locked == 0
  }

  lemma ClearedIsNotReady(k: Multi2.Keys, size: int)
    ensures k.WithoutScrambleKey().Check(size) < 0
  {
    ClearedBit(k.state);
  }

  lemma ClearedBit(state: word)
    ensures (state & !4) & 4 == 0 && state & !4 != 7
  {
  }

  /** After any ECM section a decryptor can descramble if and only if it could
      before and the card was not asked, or the card answered and had started
      the cipher. It is locked once more exactly when the card was asked and
      refused. */
  lemma EcmOutcome(cfg: Config, s: State, id: nat, raw: seq<byte>)
    requires id in s.links.decs && |raw| >= 3
    ensures id in EcmSection(cfg, s, id, raw).0.links.decs
    ensures var d, d' := s.links.decs[id], EcmSection(cfg, s, id, raw).0.links.decs[id];
      && (Ready(d') <==>
            if Asked(s, id, raw) then
              Answered(cfg, s, id, raw)
              && if d.m2.Some? then Started(d.m2.value) else cfg.init(|s.ecmCalls| + 1).status >= 0
            else Ready(d))
    ensures var d, d' := s.links.decs[id], EcmSection(cfg, s, id, raw).0.links.decs[id];
      var reply := cfg.ecm(|s.ecmCalls|, Tables.Body(raw));
      d'.locked == d.locked + if Asked(s, id, raw) && Tables.Body(raw) != [] && reply.status >= 0
                                 && !Purchased(reply.returnCode) then 1 else 0
  {
    hide Multi2.Schedule, Multi2.LoadBlock, Multi2.LoadKey, Tables.Body;
    if Answered(cfg, s, id, raw) {
      AnsweredEcmGivesKeys(cfg, s, id, raw, 1);
    } else if s.links.decs[id].m2.Some? {
      ClearedIsNotReady(s.links.decs[id].m2.value, 1);
    }
  }

  /** The return codes with which a programme is paid for. */
  predicate PaidFor(code: int) {
    code == 0x0800 || code == 0x0400 || code == 0x0200
  }

  /** What is reported of any ECM section: the code, whether it is counted as not paid
      for, the return code that is kept, and whether the card was asked. */
  lemma EcmReport(cfg: Config, s: State, id: nat, raw: seq<byte>)
    requires id in s.links.decs && |raw| >= 3
    ensures var (s', code) := EcmSection(cfg, s, id, raw);
      var d, d' := s.links.decs[id], s'.links.decs[id];
      var reply := cfg.ecm(|s.ecmCalls|, Tables.Body(raw));
      var failed := Asked(s, id, raw) && (Tables.Body(raw) == [] || reply.status < 0);
      var refused := Asked(s, id, raw) && !failed && !PaidFor(reply.returnCode);
      && (raw[0] != 0x82 ==> code == 2) && (failed ==> code == -9) && (refused ==> code == 1)
      && (raw[0] == 0x82 && d.locked != 0 ==> code == 1)
      && d'.unpurchased == d.unpurchased + (if refused || (raw[0] == 0x82 && d.locked != 0) then 1 else 0)
      && d'.lastError == (if refused then reply.returnCode else d.lastError)
      && s'.ecmCalls == s.ecmCalls + (if Asked(s, id, raw) then [EcmCall(id, refused)] else [])
  {
    hide Tables.Body, Multi2.Schedule, Multi2.LoadBlock, Multi2.LoadKey;
  }
}
