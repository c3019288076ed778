// What becomes of the sections that are fetched from their parsers: each of the
// functions that process a section gives it back, except where a cipher cannot be
// started.

module SectionUse {
  import opened Bytes
  import opened SectionModel
  import opened PidGraph
  import opened Core
  import opened LinkedLists
  import opened SectionOwnership
  import opened SectionParser
  import PidInvariant
  import Tables

  /** The oldest section; it stays with the caller. */
  method Fetch(p: TsSectionParser) returns (sect: Section, raw: seq<byte>, ghost e: Node?<Slot>)
    requires p.Valid() && p.Historic() && p.model.queue != []
    modifies p`model, p`own, p`delivered, p`ops, p.repr
    ensures p.Valid() && p.Historic() && p.Lent(e, sect)
    ensures raw == old(p.model).queue[0] && |raw| >= 3
    ensures (p.model, Some(raw)) == SectionModel.Get(old(p.model))
    ensures e !in old(p.own).lent && p.own.lent == old(p.own).lent[e := raw] && p.repr == old(p.repr)
  {
    hide List.Valid, TsSectionParser.Tied, Filling, Placed, SectionOwnership.Counted, Bounded, Kept, Buffers;
    ghost var o, w, m := p.own, p.work, p.model;
    NotItsOwn(p);
    QueueIsNotLent(o, w, m);
    var code, got, x := p.Get();
    sect, e := got.value, x;
    raw := sect.raw[..sect.len];
  }

  lemma QueueIsNotLent(o: Own, w: Node?<Slot>, m: Parser)
    requires Inv(o, w, m)
    ensures |o.buff| == |m.queue| && forall e | e in o.buff :: e !in o.lent
  {
    hide Buffers, SectionOwnership.Counted, Bounded, HeldBy;
  }

  lemma NotItsOwn(p: TsSectionParser)
    requires p.Valid()
    ensures p !in p.repr
  {
    hide List.Valid, Inv, Filling;
  }

  method GiveBack(p: TsSectionParser, sect: Section, ghost e: Node?<Slot>)
    requires p.Valid() && p.Historic() && p.Lent(e, sect)
    modifies p`own, p.repr
    ensures p.Valid() && p.Historic() && p.own.lent == old(p.own).lent - {e} && p.model == old(p.model)
  {
    hide List.Valid, TsSectionParser.Tied, Filling, Inv, Found, Overdrawn;
    NotItsOwn(p);
    LentIsTakenBack(p.own, p.work, p.model, e);
    var code := p.Ret(sect);
  }

  // ------------------------------------------------- the functions one by one

  /** proc_ecm: the section is given back, unless the card fails to start. Then its
      element stays lent, and is never used again. */
  method ProcEcm(cfg: Config, s: State, id: nat, ecm: TsSectionParser) returns (s': State, code: int, ghost e: Node?<Slot>)
    requires ecm.Valid() && ecm.Historic() && id in s.links.decs && s.links.decs[id].ecm == ecm.model
    modifies ecm`model, ecm`own, ecm`delivered, ecm`ops, ecm.repr
    ensures ecm.Valid() && ecm.Historic()
    ensures (s', code) == Core.ProcEcm(cfg, s, id) && id in s'.links.decs && s'.links.decs[id].ecm == ecm.model
    ensures code != ERROR_INVALID_B_CAS_STATUS ==> ecm.own.lent == old(ecm.own).lent
    ensures code == ERROR_INVALID_B_CAS_STATUS ==>
              e !in old(ecm.own).lent && ecm.own.lent.Keys == old(ecm.own).lent.Keys + {e}
  {
    hide TsSectionParser.Valid, TsSectionParser.Historic, EcmSection;
    e := null;
    if !cfg.hasCard {
      return s, ERROR_EMPTY_B_CAS_CARD, null;
    }
    var n := ecm.GetCount();
    if n == 0 {
      return s, ERROR_ECM_PARSE_FAILURE, null;
    }
    ghost var lent := ecm.own.lent;
    var sect, raw, x := Fetch(ecm);
    e := x;
    var s1 := WithDec(s, id, s.links.decs[id].(ecm := SectionModel.Get(s.links.decs[id].ecm).0));
    EcmKeepsParser(cfg, s1, id, raw);
    s', code := EcmSection(cfg, s1, id, raw).0, EcmSection(cfg, s1, id, raw).1;
    if code == ERROR_INVALID_B_CAS_STATUS {
      return;
    }
    GiveBack(ecm, sect, e);
    assert lent[e := raw] - {e} == lent;
  }

  lemma EcmKeepsParser(cfg: Config, s: State, id: nat, raw: seq<byte>)
    requires id in s.links.decs && |raw| >= 3
    ensures var s' := EcmSection(cfg, s, id, raw).0; id in s'.links.decs && s'.links.decs[id].ecm == s.links.decs[id].ecm
  {
    hide Tables.Body;
  }

  /** proc_pat gives it back in every case. */
  method ProcPat(s: State, pat: TsSectionParser) returns (s': State, code: int)
    requires pat.Valid() && pat.Historic() && s.pat == Some(pat.model) && pat.model.queue != []
    modifies pat`model, pat`own, pat`delivered, pat`ops, pat.repr
    ensures pat.Valid() && pat.Historic() && pat.own.lent == old(pat.own).lent
    ensures (s', code) == Core.ProcPat(s, s.pat.value) && s'.pat == Some(pat.model)
  {
    hide TsSectionParser.Valid, TsSectionParser.Historic, PidInvariant.Apply, Tables.ReadPat, Tables.PatTooShort, Tables.Body;
    ghost var lent := pat.own.lent;
    var sect, raw, e := Fetch(pat);
    var s1 := s.(pat := Some(SectionModel.Get(s.pat.value).0));
    if raw[0] != 0x00 {
      s', code := s1, WARN_TS_SECTION_ID_MISMATCH;
    } else if Tables.PatTooShort(raw) {
      s', code := s1, ERROR_NO_ENOUGH_MEMORY;
    } else {
      s', code := Applied(s1, PidInvariant.PatTable(Tables.ReadPat(Tables.Body(raw)))), 0;
    }
    GiveBack(pat, sect, e);
    assert lent[e := raw] - {e} == lent;
  }

  /** So does proc_pmt, whatever it makes of the section. */
  method ProcPmt(cfg: Config, s: State, i: nat, pmt: TsSectionParser) returns (s': State, code: int)
    requires pmt.Valid() && pmt.Historic() && i < |s.programs| && s.programs[i].pmt == pmt.model && pmt.model.queue != []
    modifies pmt`model, pmt`own, pmt`delivered, pmt`ops, pmt.repr
    ensures pmt.Valid() && pmt.Historic() && pmt.own.lent == old(pmt.own).lent
    ensures (s', code) == Core.ProcPmt(cfg, s, i, s.programs[i].pmt)
    ensures i < |s'.programs| && s'.programs[i].pmt == pmt.model
  {
    hide TsSectionParser.Valid, TsSectionParser.Historic, PmtSection;
    ghost var lent := pmt.own.lent;
    var sect, raw, e := Fetch(pmt);
    var s1 := WithPmt(s, i, SectionModel.Get(s.programs[i].pmt).0);
    PmtKeepsParser(cfg, s1, i, raw);
    s', code := PmtSection(cfg, s1, i, raw).0, PmtSection(cfg, s1, i, raw).1;
    GiveBack(pmt, sect, e);
    assert lent[e := raw] - {e} == lent;
  }

  lemma PmtKeepsParser(cfg: Config, s: State, i: nat, raw: seq<byte>)
    requires i < |s.programs| && |raw| >= 3
    ensures var s' := PmtSection(cfg, s, i, raw).0; i < |s'.programs| && s'.programs[i].pmt == s.programs[i].pmt
  {
    hide Tables.ReadPmt, SetDecryptor, UnrefAll, AddEcm, AddStreams, Release;
  }

  /** And proc_cat. */
  method ProcCat(cfg: Config, s: State, cat: TsSectionParser) returns (s': State, code: int)
    requires cat.Valid() && cat.Historic() && s.cat == Some(cat.model) && cat.model.queue != []
    modifies cat`model, cat`own, cat`delivered, cat`ops, cat.repr
    ensures cat.Valid() && cat.Historic() && cat.own.lent == old(cat.own).lent
    ensures (s', code) == Core.ProcCat(cfg, s, s.cat.value) && s'.cat == Some(cat.model)
  {
    hide TsSectionParser.Valid, TsSectionParser.Historic, PidInvariant.Apply, Tables.FindCa, Tables.Body;
    ghost var lent := cat.own.lent;
    var sect, raw, e := Fetch(cat);
    var s1 := s.(cat := Some(SectionModel.Get(s.cat.value).0));
    if raw[0] != 0x01 {
      s', code := s1, WARN_TS_SECTION_ID_MISMATCH;
    } else {
      var emm := Tables.FindCa(Tables.Body(raw), cfg.caSystemId);
      s', code := Applied(s1, PidInvariant.CatTable(emm)).(emmPid := if Real(emm) then emm else s1.emmPid), 0;
    }
    GiveBack(cat, sect, e);
    assert lent[e := raw] - {e} == lent;
  }

  /** proc_emm goes from section to section and gives each of them back, also the
      one that it stops at. */
  method ProcEmm(cfg: Config, s: State, m: Parser, emm: TsSectionParser) returns (s': State, code: int)
    requires emm.Valid() && emm.Historic() && m == emm.model
    modifies emm`model, emm`own, emm`delivered, emm`ops, emm.repr
    ensures emm.Valid() && emm.Historic() && emm.own.lent == old(emm.own).lent
    ensures cfg.hasCard ==> (s', emm.model, code) == Core.ProcEmm(cfg, s, m)
    ensures !cfg.hasCard ==> s' == s && emm.model == m && code == ERROR_EMPTY_B_CAS_CARD
  {
    hide TsSectionParser.Valid, TsSectionParser.Historic, EmmElements;
    s', code := s, 0;
    if !cfg.hasCard {
      return s, ERROR_EMPTY_B_CAS_CARD;
    }
    NotItsOwn(emm);
    ghost var lent := emm.own.lent;
    var n := emm.GetCount();
    while n > 0
      invariant emm.Valid() && emm.Historic() && emm.own.lent == lent && n == |emm.model.queue| && code == 0
      invariant emm.repr == old(emm.repr) && emm !in emm.repr
      invariant Core.ProcEmm(cfg, s, m) == Core.ProcEmm(cfg, s', emm.model)
      decreases n
    {
      var sect, raw, e := Fetch(emm);
      if raw[0] == 0x84 {
        var (s1, r) := EmmElements(cfg, s', Tables.Body(raw));
        s', code := s1, if r < 0 then r else 0;
      } else if raw[0] != 0x85 {
        code := WARN_TS_SECTION_ID_MISMATCH;
      }
      GiveBack(emm, sect, e);
      assert lent[e := raw] - {e} == lent;
      if code != 0 {
        return;
      }
      n := emm.GetCount();
    }
  }
}
