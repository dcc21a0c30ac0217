/**
  What is relied on about the libraries can be had together: a number format, a parser, a schema that reads settlement
  objects and a printer that makes them. The configurations built here are those of the example runs.
 */
module Consistency {
  import opened Text
  import opened Json
  import opened JsonLaws
  import opened Domain
  import Audit

  // ---------- numbers ----------

  const ZERO: CodeUnit := 48

  /** The decimal text of a natural number, without leading zeros. */
  predicate IsNatural(t: Str) {
    t != [] && (forall i :: 0 <= i < |t| ==> IsDigit(t[i])) && (t[0] == ZERO ==> |t| == 1)
  }

  function Digits(n: nat): (t: Str)
    ensures IsNatural(t) && (t[0] == ZERO ==> n == 0)
  {
    if n < 10 then [ZERO + n] else Digits(n / 10) + [ZERO + n % 10]
  }

  function NumberOf(t: Str): nat
    requires forall i :: 0 <= i < |t| ==> IsDigit(t[i])
  {
    if t == [] then 0
    else
      var last := t[|t| - 1];
      assert IsDigit(last);
      10 * NumberOf(t[..|t| - 1]) + (last - ZERO)
  }

  lemma {:induction false} DigitsRead(n: nat)
    ensures NumberOf(Digits(n)) == n
  {
    if n < 10 {
      assert Digits(n)[..0] == [];
    } else {
      DigitsRead(n / 10);
      assert Digits(n)[..|Digits(n)| - 1] == Digits(n / 10);
    }
  }

  // ---------- the parser ----------

  /** The parser, refusing what it should not have produced. */
  function Read(t: Str): Option<Json> {
    var r := Parse(t);
    if r.Some? && Genuine(r.value, IsNatural) && (r.value.Text? ==> |r.value.s| < |t|) then r else None
  }

  lemma {:induction false} EscapeIsLonger(s: Str)
    ensures |s| <= |Escape(s)|
  {
    if s != [] {
      EscapeIsLonger(if |s| >= 2 && IsHigh(s[0]) && IsLow(s[1]) then s[2..] else s[1..]);
    }
  }

  /** Printing and reading give every plain value back. */
  lemma ReadInvertsStringify(v: Json)
    requires Genuine(v, IsNatural) && AllFinite(v)
    ensures Read(Stringify(v)) == Some(v) && SameValue(v, v)
  {
    ParseInvertsStringify(v);
    StableDecidesEquality(v, v);
    if v.Text? {
      EscapeIsLonger(v.s);
    }
  }

  const PLATFORM := Audit.Platform(Read, v => v, IsNatural)

  lemma PlatformIsLawful()
    ensures Audit.Lawful(PLATFORM)
  {
    forall v: Json | PLATFORM.Plain(v) ensures Read(Stringify(v)) == Some(v) && Audit.Reread(PLATFORM, v, v) {
      ReadInvertsStringify(v);
    }
  }

  // ---------- the schema ----------

  const TYPE: Str := Of("type")
  const CLAIM_ID: Str := Of("claim_id")
  const MAX_AMOUNT_EUR: Str := Of("max_amount_eur")
  const REASON: Str := Of("reason")
  const APPROVED_BY: Str := Of("approved_by")
  const REQUESTED_AT: Str := Of("requested_at")
  const SETTLEMENT: Str := Of("claim.settlement.approve")

  function TextAt(es: seq<Entry<Json>>, key: Str): Option<Str> {
    var v := Lookup(es, key);
    if v.Some? && v.value.Text? then Some(v.value.s) else None
  }

  function NumberAt(es: seq<Entry<Json>>, key: Str): Option<nat> {
    var v := Lookup(es, key);
    if v.Some? && v.value.Num? && IsNatural(v.value.text) then Some(NumberOf(v.value.text)) else None
  }

  /** The settlement an object spells: its six members and no other, a positive whole amount within the bound. */
  function ReadSettlement(v: Json): Option<Command> {
    if !v.Obj? || Keys(v.entries) != {TYPE, CLAIM_ID, MAX_AMOUNT_EUR, REASON, APPROVED_BY, REQUESTED_AT} then None
    else ReadMembers(TextAt(v.entries, TYPE), TextAt(v.entries, CLAIM_ID), NumberAt(v.entries, MAX_AMOUNT_EUR),
                     TextAt(v.entries, REASON), TextAt(v.entries, APPROVED_BY), TextAt(v.entries, REQUESTED_AT))
  }

  function ReadMembers(kind: Option<Str>, claimId: Option<Str>, amount: Option<nat>, reason: Option<Str>, actor: Option<Str>, at: Option<Str>)
    : (r: Option<Command>)
    ensures r.Some? ==> kind.Some? && claimId.Some? && amount.Some? && reason.Some? && actor.Some? && at.Some? && WithinBounds(r.value)
  {
    if kind != Some(SETTLEMENT) || claimId.None? || amount.None? || reason.None? || actor.None? || at.None? then None
    else if amount.value == 0 || amount.value as real > MAX_AMOUNT then None
    else Some(SettlementApprove(claimId.value, amount.value as real, reason.value, actor.value, at.value))
  }

  lemma {:induction false} LookupFinds(es: seq<Entry<Json>>, i: nat)
    requires DistinctKeys(es) && i < |es|
    ensures Lookup(es, es[i].key) == Some(es[i].value)
  {
    if i > 0 {
      assert es[0].key != es[i].key;
      LookupFinds(es[1..], i - 1);
    }
  }

  lemma {:induction false} LookupMisses(es: seq<Entry<Json>>, key: Str)
    ensures Lookup(es, key).None? <==> key !in Keys(es)
  {
    if es != [] {
      LookupMisses(es[1..], key);
      if key in Keys(es) && es[0].key != key {
        var i :| 0 <= i < |es| && es[i].key == key;
        assert es[1..][i - 1].key == key;
      }
      if key in Keys(es[1..]) {
        var i :| 0 <= i < |es[1..]| && es[1..][i].key == key;
        assert es[i + 1].key == key;
      }
      assert es[0].key in Keys(es);
    }
  }

  /** Equal objects have equal values under a key. */
  lemma LookupAgrees(es: seq<Entry<Json>>, fs: seq<Entry<Json>>, key: Str)
    requires DistinctKeys(es) && DistinctKeys(fs) && SameValue(Obj(es), Obj(fs))
    ensures Lookup(es, key).Some? == Lookup(fs, key).Some?
    ensures Lookup(es, key).Some? ==> SameValue(Lookup(es, key).value, Lookup(fs, key).value)
  {
    LookupMisses(es, key);
    LookupMisses(fs, key);
    if Lookup(es, key).Some? {
      var i :| 0 <= i < |es| && es[i].key == key;
      var j :| 0 <= j < |fs| && fs[j].key == key;
      LookupFinds(es, i);
      LookupFinds(fs, j);
      assert SameUnder(es[i].key, es[i].value, fs);
    }
  }

  lemma MembersAgree(es: seq<Entry<Json>>, fs: seq<Entry<Json>>, key: Str)
    requires DistinctKeys(es) && DistinctKeys(fs) && SameValue(Obj(es), Obj(fs))
    ensures TextAt(es, key) == TextAt(fs, key) && NumberAt(es, key) == NumberAt(fs, key)
  {
    LookupAgrees(es, fs, key);
  }

  lemma ReadSettlementAgrees(v: Json, w: Json)
    requires WellFormed(v) && WellFormed(w) && SameValue(v, w)
    ensures ReadSettlement(v) == ReadSettlement(w)
  {
    if v.Obj? {
      forall key ensures TextAt(v.entries, key) == TextAt(w.entries, key) && NumberAt(v.entries, key) == NumberAt(w.entries, key) {
        MembersAgree(v.entries, w.entries, key);
      }
    }
  }

  lemma ReadSettlementIsFinite(v: Json)
    requires WellFormed(v) && ReadSettlement(v).Some?
    ensures AllFinite(v)
  {
    var es := v.entries;
    forall i | 0 <= i < |es| ensures AllFinite(es[i].value) {
      LookupFinds(es, i);
      assert es[i].key in Keys(es);
    }
  }

  // ---------- the printer ----------

  function SettlementEntries(c: Command): seq<Entry<Json>>
    requires c.SettlementApprove? && c.maxAmount >= 0.0
  {
    [Entry(TYPE, Text(SETTLEMENT)), Entry(CLAIM_ID, Text(c.claimId)), Entry(MAX_AMOUNT_EUR, Num(Digits(c.maxAmount.Floor))),
     Entry(REASON, Text(c.reason)), Entry(APPROVED_BY, Text(c.approvedBy)), Entry(REQUESTED_AT, Text(c.requestedAt))]
  }

  /** The object of a settlement of a whole amount; other commands are not rendered. */
  function RenderSettlement(c: Command): Json {
    if c.SettlementApprove? && c.maxAmount >= 0.0 && c.maxAmount.Floor as real == c.maxAmount then Obj(SettlementEntries(c)) else Null
  }

  lemma RenderedIsPlain(c: Command)
    ensures PLATFORM.Plain(RenderSettlement(c))
  {
    if RenderSettlement(c).Obj? {
      var es := SettlementEntries(c);
      forall i, j | 0 <= i < j < |es| ensures es[i].key != es[j].key {
        assert |es[i].key| != |es[j].key|;
      }
      assert IsNatural(Digits(c.maxAmount.Floor));
      forall i | 0 <= i < |es| ensures WellFormed(es[i].value) && Spelled(es[i].value, IsNatural) && AllFinite(es[i].value) {
      }
    }
  }

  lemma RenderedIsRead(c: Command)
    requires c.SettlementApprove? && 0.0 < c.maxAmount <= MAX_AMOUNT && c.maxAmount.Floor as real == c.maxAmount
    ensures ReadSettlement(RenderSettlement(c)) == Some(c)
  {
    var es := SettlementEntries(c);
    RenderedIsPlain(c);
    DigitsRead(c.maxAmount.Floor);
    forall i | 0 <= i < 6 ensures Lookup(es, es[i].key) == Some(es[i].value) {
      LookupFinds(es, i);
    }
    assert Lookup(es, es[0].key) == Some(es[0].value) && Lookup(es, es[1].key) == Some(es[1].value);
    assert Lookup(es, es[2].key) == Some(es[2].value) && Lookup(es, es[3].key) == Some(es[3].value);
    assert Lookup(es, es[4].key) == Some(es[4].value) && Lookup(es, es[5].key) == Some(es[5].value);
    KeysOfSettlement(c);
  }

  lemma KeysOfSettlement(c: Command)
    requires c.SettlementApprove? && c.maxAmount >= 0.0
    ensures Keys(SettlementEntries(c)) == {TYPE, CLAIM_ID, MAX_AMOUNT_EUR, REASON, APPROVED_BY, REQUESTED_AT}
  {
    var es := SettlementEntries(c);
    assert es[0].key in Keys(es) && es[1].key in Keys(es) && es[2].key in Keys(es);
    assert es[3].key in Keys(es) && es[4].key in Keys(es) && es[5].key in Keys(es);
  }

  /** A settlement that is read back from its rendering, or a rendering nothing is read from. */
  lemma RenderingIsFaithful(c: Command)
    ensures ReadSettlement(RenderSettlement(c)) == Some(c) || ReadSettlement(RenderSettlement(c)).None?
  {
    if RenderSettlement(c).Obj? {
      if 0.0 < c.maxAmount <= MAX_AMOUNT {
        RenderedIsRead(c);
      } else {
        var es := SettlementEntries(c);
        RenderedIsPlain(c);
        LookupFinds(es, 2);
        DigitsRead(c.maxAmount.Floor);
      }
    }
  }

  // ---------- a lawful configuration ----------

  function EmptyEntry(n: nat, corr: Id, event: AuditEvent): Audit.AuditEntry { Audit.AuditEntry(corr, [], [], Obj([])) }

  function Example(ceo: Id, agent: Id, threshold: real, digest: Audit.Hash, verifyEvent: SignedEvent -> bool): Config {
    Config({ceo}, {agent}, threshold, true, digest, PLATFORM, key => key, ReadSettlement, verifyEvent, key => key,
           RenderSettlement, EmptyEntry)
  }

  /** Every such configuration obeys all that is relied on, whatever its keys, threshold, hash and signature check. */
  lemma ExampleIsLawful(ceo: Id, agent: Id, threshold: real, digest: Audit.Hash, verifyEvent: SignedEvent -> bool)
    ensures Lawful(Example(ceo, agent, threshold, digest, verifyEvent))
  {
    PlatformIsLawful();
    var cfg := Example(ceo, agent, threshold, digest, verifyEvent);
    forall v, w | cfg.platform.Holds(v) && cfg.platform.Holds(w) && SameValue(v, w) ensures cfg.validate(v) == cfg.validate(w) {
      ReadSettlementAgrees(v, w);
    }
    forall v | cfg.platform.Holds(v) && cfg.validate(v).Some? ensures AllFinite(v) && WithinBounds(cfg.validate(v).value) {
      ReadSettlementIsFinite(v);
    }
    forall c ensures cfg.platform.Plain(cfg.render(c)) && (cfg.validate(cfg.render(c)) == Some(c) || cfg.validate(cfg.render(c)).None?) {
      RenderedIsPlain(c);
      RenderingIsFaithful(c);
    }
  }
}
