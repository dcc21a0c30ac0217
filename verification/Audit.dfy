/**
  The hash-chained audit log: hash = sha256(prev_hash + canonical payload), over any hash function
  whose digests are 64 hexadecimal characters.
 */
module Audit {
  import opened Text
  import opened Json
  import opened JsonLaws

  predicate IsHexUnit(c: CodeUnit) { IsDigit(c) || 97 <= c <= 102 }

  type Digest = s: Str | |s| == 64 && forall i :: 0 <= i < 64 ==> IsHexUnit(s[i])
    witness seq(64, _ => 48)

  type Hash = Str -> Digest

  /** What appendAudit is given. */
  datatype AuditEntry = AuditEntry(correlationId: Str, source: Str, action: Str, payload: Json)

  /** A row of audit_log, as a query returns it. */
  datatype Row = Row(seqNo: nat, entry: AuditEntry, prevHash: Option<Str>, hash: Str)

  /** `payload ?? {}`. */
  function OrEmptyObject(payload: Json): Json {
    if payload.Null? then Obj([]) else payload
  }

  function HashedText(prev: Str, payload: Json): Str {
    prev + StableStringify(OrEmptyObject(payload))
  }

  function ComputeAuditHash(hash: Hash, prev: Str, payload: Json): Digest {
    hash(HashedText(prev, payload))
  }

  /** What is hashed: the previous hash, then the plain text of the payload with its keys in order. */
  lemma HashesCanonicalText(hash: Hash, prev: Str, payload: Json)
    requires WellFormed(payload)
    ensures ComputeAuditHash(hash, prev, payload) == hash(prev + Stringify(Canonical(if payload == Null then Obj([]) else payload)))
    ensures Ordered(Canonical(payload))
  {
    CanonicalIsOrdered(if payload == Null then Obj([]) else payload);
    CanonicalIsOrdered(payload);
  }

  function LastHash(rows: seq<Row>): Str {
    if rows == [] then [] else rows[|rows| - 1].hash
  }

  /** JSON.parse, the JSONB column, and the texts JSON.stringify prints for numbers. */
  datatype Platform = Platform(parse: Str -> Option<Json>, column: Json -> Json, printed: Str -> bool)
  {
    /** A value a program can hold. */
    predicate Holds(v: Json) { Genuine(v, printed) }

    /** One that JSON text can say. */
    predicate Plain(v: Json) { Holds(v) && AllFinite(v) }
  }

  /**
    JSON.parse inverts JSON.stringify up to key order on the values a program can hold, returns no other values, and
    returns a string shorter than its quoted text; the column may reorder keys and nothing else.
   */
  ghost predicate Lawful(p: Platform) {
    && (forall t :: p.printed(t) ==> IsNumberText(t))
    && (forall v :: p.Plain(v) ==> p.parse(Stringify(v)).Some? && Reread(p, v, p.parse(Stringify(v)).value))
    && (forall t :: p.parse(t).Some? && p.parse(t).value.Text? ==> |p.parse(t).value.s| < |t|)
    && (forall t :: p.parse(t).Some? ==> p.Holds(p.parse(t).value))
    && (forall v :: p.Plain(v) ==> Reread(p, v, p.column(v)))
  }

  ghost predicate Reread(p: Platform, v: Json, w: Json) {
    p.Plain(w) && SameValue(v, w)
  }

  /** The payload as verifyAuditChain sees it: a string is parsed if it can be, the rest goes through text. */
  function ReadBack(p: Platform, payload: Json): Json {
    var text := if payload.Text? then payload.s else Stringify(payload);
    var parsed := p.parse(text);
    if parsed.Some? then parsed.value else Text(text)
  }

  // ---------- appending ----------

  /** The row an append inserts after a row whose hash is `prev`. */
  function NextRow(hash: Hash, p: Platform, prev: Str, entry: AuditEntry, seqNo: nat): Row {
    Row(seqNo, entry.(payload := p.column(Finite(OrEmptyObject(entry.payload)))), Some(prev), ComputeAuditHash(hash, prev, entry.payload))
  }

  function Appended(hash: Hash, p: Platform, rows: seq<Row>, entry: AuditEntry, seqNo: nat): (r: seq<Row>)
    ensures |r| == |rows| + 1
  {
    rows + [NextRow(hash, p, LastHash(rows), entry, seqNo)]
  }

  class AuditLog {
    var rows: seq<Row>

    constructor ()
      ensures rows == []
    {
      rows := [];
    }

    method ReadLastHash() returns (h: Str)
      ensures h == LastHash(rows)
    {
      h := [];
      if rows != [] {
        h := rows[|rows| - 1].hash;
      }
    }

    /** appendAudit, run as the serialized operation it assumes. */
    method AppendAudit(hash: Hash, p: Platform, entry: AuditEntry, seqNo: nat) returns (h: Digest)
      modifies this
      ensures rows == Appended(hash, p, old(rows), entry, seqNo)
      ensures h == LastHash(rows)
    {
      var prev := ReadLastHash();
      h := ComputeAuditHash(hash, prev, entry.payload);
      rows := rows + [Row(seqNo, entry.(payload := p.column(Finite(OrEmptyObject(entry.payload)))), Some(prev), h)];
    }
  }

  // ---------- verifying ----------

  function PrevOf(rows: seq<Row>, i: nat): Str
    requires i <= |rows|
  {
    if i == 0 then [] else rows[i - 1].hash
  }

  predicate LinkOk(rows: seq<Row>, i: nat)
    requires i < |rows|
  {
    (if rows[i].prevHash.Some? then rows[i].prevHash.value else []) == PrevOf(rows, i)
  }

  predicate HashOk(hash: Hash, p: Platform, rows: seq<Row>, i: nat)
    requires i < |rows|
  {
    rows[i].hash == ComputeAuditHash(hash, PrevOf(rows, i), ReadBack(p, rows[i].entry.payload))
  }

  predicate Verifies(hash: Hash, p: Platform, rows: seq<Row>) {
    forall i :: 0 <= i < |rows| ==> LinkOk(rows, i) && HashOk(hash, p, rows, i)
  }

  datatype Verdict = Intact | Broken(at: nat, reason: Reason)

  datatype Reason = PrevHashMismatch | HashMismatch

  predicate IntactBefore(hash: Hash, p: Platform, rows: seq<Row>, n: nat)
    requires n <= |rows|
  {
    forall j :: 0 <= j < n ==> LinkOk(rows, j) && HashOk(hash, p, rows, j)
  }

  /** Row k is the first that fails, and the link is looked at before the hash. */
  predicate FirstFailure(hash: Hash, p: Platform, rows: seq<Row>, k: nat, reason: Reason)
    requires k < |rows|
  {
    && IntactBefore(hash, p, rows, k)
    && if reason == PrevHashMismatch then !LinkOk(rows, k) else LinkOk(rows, k) && !HashOk(hash, p, rows, k)
  }

  /** What is wrong with a row that comes after one with hash `prev`. */
  function RowFailure(hash: Hash, p: Platform, row: Row, prev: Str): Option<Reason> {
    if (if row.prevHash.Some? then row.prevHash.value else []) != prev then Some(PrevHashMismatch)
    else if row.hash != ComputeAuditHash(hash, prev, ReadBack(p, row.entry.payload)) then Some(HashMismatch)
    else None
  }

  lemma RowFailureMeans(hash: Hash, p: Platform, rows: seq<Row>, i: nat)
    requires i < |rows|
    ensures var failure := RowFailure(hash, p, rows[i], PrevOf(rows, i));
      && (failure == None <==> LinkOk(rows, i) && HashOk(hash, p, rows, i))
      && (failure == Some(PrevHashMismatch) <==> !LinkOk(rows, i))
  {
  }

  method VerifyAuditChain(hash: Hash, p: Platform, rows: seq<Row>) returns (v: Verdict)
    ensures v.Intact? <==> Verifies(hash, p, rows)
    ensures v.Broken? ==> exists k :: 0 <= k < |rows| && v.at == rows[k].seqNo && FirstFailure(hash, p, rows, k, v.reason)
  {
    var prev: Str := [];
    for i := 0 to |rows|
      invariant prev == PrevOf(rows, i)
      invariant IntactBefore(hash, p, rows, i)
    {
      var failure := RowFailure(hash, p, rows[i], prev);
      RowFailureMeans(hash, p, rows, i);
      if failure.Some? {
        BrokenAt(hash, p, rows, i, failure.value);
        return Broken(rows[i].seqNo, failure.value);
      }
      IntactOneMore(hash, p, rows, i);
      prev := rows[i].hash;
    }
    v := Intact;
  }

  lemma IntactOneMore(hash: Hash, p: Platform, rows: seq<Row>, n: nat)
    requires n < |rows| && IntactBefore(hash, p, rows, n) && LinkOk(rows, n) && HashOk(hash, p, rows, n)
    ensures IntactBefore(hash, p, rows, n + 1)
  {
  }

  lemma BrokenAt(hash: Hash, p: Platform, rows: seq<Row>, k: nat, reason: Reason)
    requires k < |rows| && FirstFailure(hash, p, rows, k, reason)
    ensures !Verifies(hash, p, rows)
    ensures exists i :: 0 <= i < |rows| && rows[k].seqNo == rows[i].seqNo && FirstFailure(hash, p, rows, i, reason)
  {
  }

  /** The rows before an intact stretch's end verify on their own. */
  lemma PrefixVerifies(hash: Hash, p: Platform, rows: seq<Row>, k: nat)
    requires k <= |rows| && IntactBefore(hash, p, rows, k)
    ensures Verifies(hash, p, rows[..k])
  {
    forall j | 0 <= j < k ensures LinkOk(rows[..k], j) && HashOk(hash, p, rows[..k], j) {
      assert LinkOk(rows, j) && HashOk(hash, p, rows, j);
      assert PrevOf(rows[..k], j) == PrevOf(rows, j);
    }
  }

  // ---------- every log that was only appended to verifies ----------

  datatype Append = Append(entry: AuditEntry, seqNo: nat)

  function Build(hash: Hash, p: Platform, appends: seq<Append>): (rows: seq<Row>)
    ensures |rows| == |appends|
  {
    if appends == [] then []
    else
      var last := appends[|appends| - 1];
      Appended(hash, p, Build(hash, p, appends[..|appends| - 1]), last.entry, last.seqNo)
  }

  /**
    The payloads that do not survive storage are a bare string that is itself JSON text, which comes back as
    the value it spells, and a bare infinity, which is hashed as null but read back as {}.
   */
  predicate Survives(p: Platform, payload: Json) {
    !(payload.Text? && p.parse(payload.s).Some?) && payload != NonFinite
  }

  lemma ScalarsReread(v: Json, w: Json)
    requires SameValue(v, w) && !v.Arr? && !v.Obj?
    ensures v == w
  {
  }

  /** Storing and reading back keeps the hashed text, exactly for the payloads that survive. */
  lemma ReadBackKeepsText(p: Platform, prev: Str, payload: Json)
    requires Lawful(p) && p.Holds(payload)
    ensures HashedText(prev, ReadBack(p, p.column(Finite(OrEmptyObject(payload))))) == HashedText(prev, payload)
       <==> Survives(p, payload)
  {
    var v := Finite(OrEmptyObject(payload));
    FiniteKeepsCanonical(OrEmptyObject(payload));
    FiniteKeepsSpelling(OrEmptyObject(payload), p.printed);
    StablePrintsCanonical(OrEmptyObject(payload));
    StablePrintsCanonical(v);
    var stored := p.column(v);
    assert Reread(p, v, stored);
    StableDecidesEquality(v, stored);
    if v.Text? {
      ScalarsReread(v, stored);
      StringReadBack(p, prev, v.s);
    } else {
      assert p.parse(Stringify(stored)).Some? && Reread(p, stored, p.parse(Stringify(stored)).value);
      assert !stored.Text?;
      var w := ReadBack(p, stored);
      StableDecidesEquality(stored, w);
      assert StableStringify(w) == StableStringify(v);
      if payload == NonFinite {
        ScalarsReread(v, stored);
        ScalarsReread(stored, w);
        NullIsNotEmptyObject(prev);
      } else {
        StableDecidesEquality(w, v);
      }
    }
  }

  lemma NullIsNotEmptyObject(prev: Str)
    ensures HashedText(prev, Null) != HashedText(prev, NonFinite)
  {
    assert HashedText(prev, NonFinite)[|prev|..] == NULL_TEXT;
    assert HashedText(prev, Null)[|prev|] == OPEN_BRACE;
  }

  lemma StringReadBack(p: Platform, prev: Str, s: Str)
    requires Lawful(p)
    ensures HashedText(prev, ReadBack(p, Text(s))) == HashedText(prev, Text(s)) <==> p.parse(s).None?
  {
    if p.parse(s).Some? {
      var w := OrEmptyObject(p.parse(s).value);
      if HashedText(prev, w) == HashedText(prev, Text(s)) {
        assert HashedText(prev, w)[|prev|..] == StableStringify(w);
        assert HashedText(prev, Text(s))[|prev|..] == StableStringify(Text(s));
        StableDecidesEquality(w, Text(s));
        FiniteText(w, s);
        assert false;
      }
    }
  }

  lemma FiniteText(w: Json, s: Str)
    requires SameValue(Finite(w), Finite(Text(s)))
    ensures w == Text(s)
  {
  }

  lemma {:induction false} BuiltRow(hash: Hash, p: Platform, appends: seq<Append>, i: nat)
    requires i < |appends|
    ensures var rows := Build(hash, p, appends);
      && rows[i] == Appended(hash, p, rows[..i], appends[i].entry, appends[i].seqNo)[i]
      && rows[..i] == Build(hash, p, appends[..i])
  {
    var n := |appends| - 1;
    var before := Build(hash, p, appends[..n]);
    assert Build(hash, p, appends)[..n] == before;
    if i < n {
      BuiltRow(hash, p, appends[..n], i);
      assert Build(hash, p, appends)[..i] == before[..i];
      assert appends[..n][..i] == appends[..i];
    }
  }

  /** Row i of a built log links to its predecessor and was hashed from the payload as given. */
  lemma {:induction false} BuiltRowLinks(hash: Hash, p: Platform, appends: seq<Append>, i: nat)
    requires i < |appends|
    ensures var rows := Build(hash, p, appends);
      && LinkOk(rows, i)
      && rows[i].hash == ComputeAuditHash(hash, PrevOf(rows, i), appends[i].entry.payload)
      && rows[i].seqNo == appends[i].seqNo && rows[i].prevHash == Some(PrevOf(rows, i))
      && rows[i].entry == AuditEntry(appends[i].entry.correlationId, appends[i].entry.source, appends[i].entry.action,
                                     p.column(Finite(OrEmptyObject(appends[i].entry.payload))))
  {
    BuiltRow(hash, p, appends, i);
    var rows := Build(hash, p, appends);
    assert LastHash(rows[..i]) == PrevOf(rows, i);
  }

  /** A row appended with a payload that survives checks. */
  lemma AppendedRowChecks(hash: Hash, p: Platform, rows: seq<Row>, entry: AuditEntry, seqNo: nat)
    requires Lawful(p) && p.Holds(entry.payload) && Survives(p, entry.payload)
    ensures var after := Appended(hash, p, rows, entry, seqNo); LinkOk(after, |rows|) && HashOk(hash, p, after, |rows|)
  {
    ReadBackKeepsText(p, LastHash(rows), entry.payload);
  }

  lemma EarlierRowChecks(hash: Hash, p: Platform, rows: seq<Row>, row: Row, i: nat)
    requires i < |rows| && LinkOk(rows, i) && HashOk(hash, p, rows, i)
    ensures LinkOk(rows + [row], i) && HashOk(hash, p, rows + [row], i)
  {
    assert PrevOf(rows + [row], i) == PrevOf(rows, i);
  }

  /** Appending a payload that survives keeps any verifying log verifying. */
  lemma AppendKeepsVerifying(hash: Hash, p: Platform, rows: seq<Row>, entry: AuditEntry, seqNo: nat)
    requires Lawful(p) && Verifies(hash, p, rows)
    requires p.Holds(entry.payload) && Survives(p, entry.payload)
    ensures Verifies(hash, p, Appended(hash, p, rows, entry, seqNo))
  {
    var after := Appended(hash, p, rows, entry, seqNo);
    AppendedRowChecks(hash, p, rows, entry, seqNo);
    forall i | 0 <= i < |rows| ensures LinkOk(after, i) && HashOk(hash, p, after, i) {
      EarlierRowChecks(hash, p, rows, NextRow(hash, p, LastHash(rows), entry, seqNo), i);
    }
  }

  /** Any log built by appends verifies when every payload survives; all the bridge's payloads are objects. */
  lemma {:induction false} BuiltLogVerifies(hash: Hash, p: Platform, appends: seq<Append>)
    requires Lawful(p)
    requires forall i :: 0 <= i < |appends| ==> p.Holds(appends[i].entry.payload) && Survives(p, appends[i].entry.payload)
    ensures Verifies(hash, p, Build(hash, p, appends))
  {
    if appends != [] {
      var n := |appends| - 1;
      BuiltLogVerifies(hash, p, appends[..n]);
      AppendKeepsVerifying(hash, p, Build(hash, p, appends[..n]), appends[n].entry, appends[n].seqNo);
    }
  }

  /**
    And only then, up to one collision: row i checks exactly when the text hashed for it and the text read back for it
    have one hash, and these texts are the same exactly when its payload survives.
   */
  lemma LostPayloadBreaksRow(hash: Hash, p: Platform, appends: seq<Append>, i: nat) returns (x: Str, y: Str)
    requires Lawful(p) && i < |appends| && p.Holds(appends[i].entry.payload)
    ensures var rows := Build(hash, p, appends);
      && x == HashedText(PrevOf(rows, i), ReadBack(p, rows[i].entry.payload))
      && y == HashedText(PrevOf(rows, i), appends[i].entry.payload)
      && LinkOk(rows, i) && (HashOk(hash, p, rows, i) <==> hash(x) == hash(y))
      && (x == y <==> Survives(p, appends[i].entry.payload))
  {
    var rows := Build(hash, p, appends);
    BuiltRowLinks(hash, p, appends, i);
    ReadBackKeepsText(p, PrevOf(rows, i), appends[i].entry.payload);
    x := HashedText(PrevOf(rows, i), ReadBack(p, rows[i].entry.payload));
    y := HashedText(PrevOf(rows, i), appends[i].entry.payload);
  }

  /** Only payload, previous hash and hash are covered: everything else can change unnoticed. */
  lemma ChainCoversPayloadOnly(hash: Hash, p: Platform, a: seq<Row>, b: seq<Row>)
    requires |a| == |b|
    requires forall i :: 0 <= i < |a| ==>
      a[i].prevHash == b[i].prevHash && a[i].hash == b[i].hash && a[i].entry.payload == b[i].entry.payload
    ensures Verifies(hash, p, a) == Verifies(hash, p, b)
  {
    forall i | 0 <= i < |a|
      ensures LinkOk(a, i) == LinkOk(b, i) && HashOk(hash, p, a, i) == HashOk(hash, p, b, i)
    {
    }
  }

  // ---------- the last hash commits to the whole log ----------

  predicate NoBrace(s: Str) {
    forall i :: 0 <= i < |s| ==> s[i] != OPEN_BRACE
  }

  lemma SplitAtBrace(p: Str, c: Str, q: Str, d: Str)
    requires p + c == q + d && NoBrace(p) && NoBrace(q)
    requires c != [] && d != [] && c[0] == d[0] == OPEN_BRACE
    ensures p == q && c == d
  {
    assert (p + c)[|p|] == OPEN_BRACE && (q + d)[|q|] == OPEN_BRACE;
    assert |p| == |q|;
    assert p == (p + c)[..|p|] && q == (q + d)[..|q|];
    assert c == (p + c)[|p|..] && d == (q + d)[|q|..];
  }

  function Payload(p: Platform, rows: seq<Row>, i: nat): Json
    requires i < |rows|
  {
    ReadBack(p, rows[i].entry.payload)
  }

  ghost predicate ObjectPayloads(p: Platform, rows: seq<Row>) {
    forall i :: 0 <= i < |rows| ==> Payload(p, rows, i).Obj? && WellFormed(Payload(p, rows, i))
  }

  function RowText(p: Platform, rows: seq<Row>, i: nat): Str
    requires i < |rows|
  {
    HashedText(PrevOf(rows, i), Payload(p, rows, i))
  }

  /** Walks two logs back from their ends to the first pair of rows whose hashed texts differ. */
  function WalkBack(p: Platform, a: seq<Row>, b: seq<Row>): Option<(Str, Str)> {
    if a == [] || b == [] then None
    else
      var x, y := RowText(p, a, |a| - 1), RowText(p, b, |b| - 1);
      if x != y then Some((x, y)) else WalkBack(p, a[..|a| - 1], b[..|b| - 1])
  }

  ghost predicate SameRow(p: Platform, a: seq<Row>, b: seq<Row>, i: nat)
    requires i < |a| && i < |b|
  {
    && a[i].hash == b[i].hash
    && PrevOf(a, i) == PrevOf(b, i)
    && SameValue(Finite(Payload(p, a, i)), Finite(Payload(p, b, i)))
  }

  ghost predicate Agree(p: Platform, a: seq<Row>, b: seq<Row>) {
    |a| == |b| && forall i :: 0 <= i < |a| ==> SameRow(p, a, b, i)
  }

  /** Two verified logs with the same last hash agree row by row, or walking back finds a collision. */
  lemma {:induction false} LastHashCommits(hash: Hash, p: Platform, a: seq<Row>, b: seq<Row>)
    requires Verifies(hash, p, a) && Verifies(hash, p, b)
    requires ObjectPayloads(p, a) && ObjectPayloads(p, b)
    requires LastHash(a) == LastHash(b)
    ensures WalkBack(p, a, b).None? ==> Agree(p, a, b)
    ensures WalkBack(p, a, b).Some? ==>
      var (x, y) := WalkBack(p, a, b).value; x != y && hash(x) == hash(y)
    decreases |a|
  {
    LastHashOfVerified(hash, p, a);
    LastHashOfVerified(hash, p, b);
    if a != [] && b != [] && RowText(p, a, |a| - 1) == RowText(p, b, |b| - 1) {
      OneStepBack(hash, p, a, b);
      var a', b' := a[..|a| - 1], b[..|b| - 1];
      LastHashCommits(hash, p, a', b');
      if WalkBack(p, a', b').None? {
        AgreeExtends(p, a, b);
      }
    }
  }

  /** Logs whose last rows were hashed from one text agree on those rows, and their prefixes are in the same position. */
  lemma OneStepBack(hash: Hash, p: Platform, a: seq<Row>, b: seq<Row>)
    requires a != [] && b != [] && Verifies(hash, p, a) && Verifies(hash, p, b)
    requires ObjectPayloads(p, a) && ObjectPayloads(p, b)
    requires LastHash(a) == LastHash(b) && RowText(p, a, |a| - 1) == RowText(p, b, |b| - 1)
    ensures var a', b' := a[..|a| - 1], b[..|b| - 1];
      && Verifies(hash, p, a') && Verifies(hash, p, b') && ObjectPayloads(p, a') && ObjectPayloads(p, b')
      && LastHash(a') == LastHash(b')
    ensures |a| == |b| ==> SameRow(p, a, b, |a| - 1)
  {
    SameTextSameRow(hash, p, a, b);
    PrefixKeeps(hash, p, a);
    PrefixKeeps(hash, p, b);
  }

  lemma LastHashOfVerified(hash: Hash, p: Platform, rows: seq<Row>)
    requires Verifies(hash, p, rows)
    ensures rows == [] <==> LastHash(rows) == []
    ensures rows != [] ==> LastHash(rows) == hash(RowText(p, rows, |rows| - 1))
  {
    if rows != [] {
      assert HashOk(hash, p, rows, |rows| - 1);
      assert |LastHash(rows)| == 64;
    }
  }

  lemma PrefixKeeps(hash: Hash, p: Platform, rows: seq<Row>)
    requires rows != [] && Verifies(hash, p, rows) && ObjectPayloads(p, rows)
    ensures Verifies(hash, p, rows[..|rows| - 1]) && ObjectPayloads(p, rows[..|rows| - 1])
  {
    PrefixVerifies(hash, p, rows, |rows| - 1);
    var before := rows[..|rows| - 1];
    forall i | 0 <= i < |before| ensures Payload(p, before, i).Obj? && WellFormed(Payload(p, before, i)) {
      assert Payload(p, before, i) == Payload(p, rows, i);
    }
  }

  lemma SameTextSameRow(hash: Hash, p: Platform, a: seq<Row>, b: seq<Row>)
    requires a != [] && b != [] && Verifies(hash, p, a) && Verifies(hash, p, b)
    requires ObjectPayloads(p, a) && ObjectPayloads(p, b)
    requires LastHash(a) == LastHash(b)
    requires RowText(p, a, |a| - 1) == RowText(p, b, |b| - 1)
    ensures LastHash(a[..|a| - 1]) == LastHash(b[..|b| - 1])
    ensures a[|a| - 1].hash == b[|b| - 1].hash && PrevOf(a, |a| - 1) == PrevOf(b, |b| - 1)
    ensures SameValue(Finite(Payload(p, a, |a| - 1)), Finite(Payload(p, b, |b| - 1)))
  {
    var m, n := |a| - 1, |b| - 1;
    PrevHasNoBrace(hash, p, a, m);
    PrevHasNoBrace(hash, p, b, n);
    SameTextSameParts(PrevOf(a, m), Payload(p, a, m), PrevOf(b, n), Payload(p, b, n));
  }

  lemma SameTextSameParts(p: Str, v: Json, q: Str, w: Json)
    requires NoBrace(p) && NoBrace(q) && v.Obj? && w.Obj? && WellFormed(v) && WellFormed(w)
    requires HashedText(p, v) == HashedText(q, w)
    ensures p == q && SameValue(Finite(v), Finite(w))
  {
    ObjectTextHead(v);
    ObjectTextHead(w);
    SplitAtBrace(p, StableStringify(v), q, StableStringify(w));
    StableDecidesEquality(v, w);
  }

  lemma ObjectTextHead(v: Json)
    requires v.Obj?
    ensures StableStringify(v) != [] && StableStringify(v)[0] == OPEN_BRACE
  {
  }

  lemma PrevHasNoBrace(hash: Hash, p: Platform, rows: seq<Row>, i: nat)
    requires i < |rows| && Verifies(hash, p, rows)
    ensures NoBrace(PrevOf(rows, i))
  {
    if i > 0 {
      assert HashOk(hash, p, rows, i - 1);
    }
  }

  lemma AgreeExtends(p: Platform, a: seq<Row>, b: seq<Row>)
    requires a != [] && b != [] && Agree(p, a[..|a| - 1], b[..|b| - 1])
    requires |a| == |b| ==> SameRow(p, a, b, |a| - 1)
    ensures Agree(p, a, b)
  {
    var m := |a| - 1;
    forall i | 0 <= i < m ensures SameRow(p, a, b, i) {
      assert SameRow(p, a[..m], b[..m], i);
    }
  }
}
