/**
  Appends to the audit log without a lock. An append reads the last hash and later inserts its row, two calls of the
  repository; here the calls of any number of appends come in any order. An append whose read or insert was refused
  is one that makes no insert.
 */
module AuditOverlap {
  import opened Text
  import opened Json
  import opened JsonLaws
  import opened Audit

  datatype Step = Read(entry: AuditEntry) | Insert(k: nat)

  /** An append that has read `prev` as the hash of the last of `seen` rows. */
  datatype Appender = Appender(entry: AuditEntry, prev: Str, seen: nat, inserted: bool)

  /** The log, how many rows there were when each row's append read the last hash, and the appends begun. */
  datatype Log = Log(rows: seq<Row>, seen: seq<nat>, appenders: seq<Appender>)

  function Taken(hash: Hash, p: Platform, l: Log, step: Step): Log {
    match step
    case Read(entry) => l.(appenders := l.appenders + [Appender(entry, LastHash(l.rows), |l.rows|, false)])
    case Insert(k) =>
      if k < |l.appenders| && !l.appenders[k].inserted then
        var a := l.appenders[k];
        Log(l.rows + [NextRow(hash, p, a.prev, a.entry, |l.rows| + 1)], l.seen + [a.seen], l.appenders[k := a.(inserted := true)])
      else l
  }

  function Play(hash: Hash, p: Platform, rows: seq<Row>, steps: seq<Step>): Log {
    if steps == [] then Log(rows, seq(|rows|, i => i), [])
    else Taken(hash, p, Play(hash, p, rows, steps[..|steps| - 1]), steps[|steps| - 1])
  }

  /** No row was inserted between the read and the insert of another. */
  predicate InTurn(l: Log) { forall i :: 0 <= i < |l.rows| && i < |l.seen| ==> l.seen[i] == i }

  // ---------- what every row was made from ----------

  /** Row i was linked to, and hashed from, the last of the rows its append had seen. */
  ghost predicate MadeFrom(hash: Hash, p: Platform, rows: seq<Row>, i: nat, seen: nat)
    requires i < |rows|
  {
    && seen <= i
    && (if rows[i].prevHash.Some? then rows[i].prevHash.value else []) == LastHash(rows[..seen])
    && rows[i].hash == ComputeAuditHash(hash, LastHash(rows[..seen]), Payload(p, rows, i))
  }

  ghost predicate RowsMade(hash: Hash, p: Platform, l: Log) {
    |l.seen| == |l.rows| && forall i :: 0 <= i < |l.rows| ==> MadeFrom(hash, p, l.rows, i, l.seen[i])
  }

  predicate Storable(p: Platform, entry: AuditEntry) { p.Holds(entry.payload) && entry.payload.Obj? }

  ghost predicate ReadersRead(p: Platform, l: Log) {
    forall k :: 0 <= k < |l.appenders| ==>
      var a := l.appenders[k];
      a.seen <= |l.rows| && a.prev == LastHash(l.rows[..a.seen]) && Storable(p, a.entry)
  }

  ghost predicate Consistent(hash: Hash, p: Platform, l: Log) {
    RowsMade(hash, p, l) && ReadersRead(p, l) && ObjectPayloads(p, l.rows)
  }

  /** An object is stored as an object, and hashes alike when read back. */
  lemma StoredObject(p: Platform, prev: Str, entry: AuditEntry)
    requires Lawful(p) && Storable(p, entry)
    ensures var back := ReadBack(p, p.column(Finite(OrEmptyObject(entry.payload))));
      back.Obj? && WellFormed(back) && HashedText(prev, back) == HashedText(prev, entry.payload)
  {
    ReadBackKeepsText(p, prev, entry.payload);
    FiniteKeepsSpelling(entry.payload, p.printed);
    FiniteKeepsCanonical(entry.payload);
    var v := Finite(entry.payload);
    var stored := p.column(v);
    assert Reread(p, v, stored);
    assert Reread(p, stored, p.parse(Stringify(stored)).value);
  }

  lemma RowsMadeSoFar(hash: Hash, p: Platform, rows: seq<Row>, row: Row, i: nat, seen: nat)
    requires i < |rows| && MadeFrom(hash, p, rows, i, seen)
    ensures MadeFrom(hash, p, rows + [row], i, seen) && Payload(p, rows + [row], i) == Payload(p, rows, i)
  {
    assert (rows + [row])[..seen] == rows[..seen];
  }

  lemma InsertKeeps(hash: Hash, p: Platform, l: Log, k: nat)
    requires Lawful(p) && Consistent(hash, p, l) && k < |l.appenders| && !l.appenders[k].inserted
    ensures Consistent(hash, p, Taken(hash, p, l, Insert(k)))
  {
    var n, a, after := |l.rows|, l.appenders[k], Taken(hash, p, l, Insert(k));
    var row := NextRow(hash, p, a.prev, a.entry, n + 1);
    StoredObject(p, a.prev, a.entry);
    assert after.rows == l.rows + [row];
    forall i | 0 <= i <= n
      ensures MadeFrom(hash, p, after.rows, i, after.seen[i]) && Payload(p, after.rows, i).Obj? && WellFormed(Payload(p, after.rows, i))
    {
      if i < n {
        RowsMadeSoFar(hash, p, l.rows, row, i, l.seen[i]);
      } else {
        assert after.rows[..a.seen] == l.rows[..a.seen];
      }
    }
    forall j | 0 <= j < |after.appenders|
      ensures after.rows[..after.appenders[j].seen] == l.rows[..l.appenders[j].seen]
    {
    }
  }

  lemma ReadKeeps(hash: Hash, p: Platform, l: Log, entry: AuditEntry)
    requires Consistent(hash, p, l) && Storable(p, entry)
    ensures Consistent(hash, p, Taken(hash, p, l, Read(entry)))
  {
    assert l.rows[..|l.rows|] == l.rows;
  }

  lemma LastOfPrefix(rows: seq<Row>, i: nat)
    requires i <= |rows|
    ensures LastHash(rows[..i]) == PrevOf(rows, i)
  {
  }

  lemma StartIsConsistent(hash: Hash, p: Platform, rows: seq<Row>)
    requires Verifies(hash, p, rows) && ObjectPayloads(p, rows)
    ensures Consistent(hash, p, Play(hash, p, rows, []))
  {
    forall i | 0 <= i < |rows| ensures MadeFrom(hash, p, rows, i, i) {
      LastOfPrefix(rows, i);
      assert LinkOk(rows, i) && HashOk(hash, p, rows, i);
    }
  }

  lemma {:induction false} PlayIsConsistent(hash: Hash, p: Platform, rows: seq<Row>, steps: seq<Step>)
    requires Lawful(p) && Verifies(hash, p, rows) && ObjectPayloads(p, rows)
    requires forall i :: 0 <= i < |steps| && steps[i].Read? ==> Storable(p, steps[i].entry)
    ensures Consistent(hash, p, Play(hash, p, rows, steps))
  {
    if steps == [] {
      StartIsConsistent(hash, p, rows);
    } else {
      var before, step := steps[..|steps| - 1], steps[|steps| - 1];
      PlayIsConsistent(hash, p, rows, before);
      var l := Play(hash, p, rows, before);
      match step
      case Read(entry) => ReadKeeps(hash, p, l, entry);
      case Insert(k) =>
        if k < |l.appenders| && !l.appenders[k].inserted {
          InsertKeeps(hash, p, l, k);
        }
    }
  }

  // ---------- when the log verifies ----------

  /** When it inserted row i, its append found the last hash to be the one it had read. */
  predicate FoundAsRead(l: Log, i: nat)
    requires i < |l.rows| && i < |l.seen| && l.seen[i] <= i
  {
    LastHash(l.rows[..l.seen[i]]) == LastHash(l.rows[..i])
  }

  lemma RowVerifiesExactly(hash: Hash, p: Platform, l: Log, i: nat)
    requires Consistent(hash, p, l) && i < |l.rows|
    ensures l.seen[i] <= i
    ensures LinkOk(l.rows, i) && HashOk(hash, p, l.rows, i) <==> FoundAsRead(l, i)
  {
    assert MadeFrom(hash, p, l.rows, i, l.seen[i]);
    LastOfPrefix(l.rows, i);
  }

  /** The two logs whose last hashes are one: the rows an append had seen, and the rows it inserted after. */
  function Revisited(p: Platform, l: Log, i: nat): Option<(Str, Str)>
    requires i < |l.rows| && i < |l.seen| && l.seen[i] <= i
  {
    WalkBack(p, l.rows[..l.seen[i]], l.rows[..i])
  }

  /** In a log that verifies, walking back from a row inserted out of turn finds two texts with one hash. */
  lemma OutOfTurnCollides(hash: Hash, p: Platform, l: Log, i: nat)
    requires Consistent(hash, p, l) && Verifies(hash, p, l.rows) && i < |l.rows| && l.seen[i] != i
    ensures l.seen[i] < i && Collides(hash, p, l, i)
  {
    RowVerifiesExactly(hash, p, l, i);
    assert LinkOk(l.rows, i) && HashOk(hash, p, l.rows, i);
    PrefixVerifies(hash, p, l.rows, l.seen[i]);
    PrefixVerifies(hash, p, l.rows, i);
    PrefixHasObjects(p, l.rows, l.seen[i]);
    PrefixHasObjects(p, l.rows, i);
    LastHashCommits(hash, p, l.rows[..l.seen[i]], l.rows[..i]);
  }

  lemma PrefixHasObjects(p: Platform, rows: seq<Row>, n: nat)
    requires ObjectPayloads(p, rows) && n <= |rows|
    ensures ObjectPayloads(p, rows[..n])
  {
    forall i | 0 <= i < n ensures Payload(p, rows[..n], i) == Payload(p, rows, i) {
    }
  }

  /** Appended to without a lock, a log that verified goes on verifying exactly when each append found the hash it had read. */
  lemma VerifiesExactlyAsRead(hash: Hash, p: Platform, rows: seq<Row>, steps: seq<Step>)
    requires Lawful(p) && Verifies(hash, p, rows) && ObjectPayloads(p, rows)
    requires forall i :: 0 <= i < |steps| && steps[i].Read? ==> Storable(p, steps[i].entry)
    ensures var l := Play(hash, p, rows, steps);
      && |l.seen| == |l.rows| && (forall i :: 0 <= i < |l.rows| ==> l.seen[i] <= i)
      && (Verifies(hash, p, l.rows) <==> forall i :: 0 <= i < |l.rows| ==> FoundAsRead(l, i))
  {
    var l := Play(hash, p, rows, steps);
    PlayIsConsistent(hash, p, rows, steps);
    forall i | 0 <= i < |l.rows| ensures l.seen[i] <= i && (LinkOk(l.rows, i) && HashOk(hash, p, l.rows, i) <==> FoundAsRead(l, i)) {
      RowVerifiesExactly(hash, p, l, i);
    }
  }

  /**
    So it verifies when no append had another insert between its read and its insert, and otherwise only by a
    collision: then walking back from the rows the append saw and the rows it came after finds two texts with one hash.
   */
  lemma VerifiesExactlyInTurn(hash: Hash, p: Platform, rows: seq<Row>, steps: seq<Step>)
    requires Lawful(p) && Verifies(hash, p, rows) && ObjectPayloads(p, rows)
    requires forall i :: 0 <= i < |steps| && steps[i].Read? ==> Storable(p, steps[i].entry)
    ensures var l := Play(hash, p, rows, steps);
      && |l.seen| == |l.rows|
      && (InTurn(l) ==> Verifies(hash, p, l.rows))
      && (Verifies(hash, p, l.rows) ==> forall i :: 0 <= i < |l.rows| && l.seen[i] != i ==> l.seen[i] < i && Collides(hash, p, l, i))
  {
    var l := Play(hash, p, rows, steps);
    PlayIsConsistent(hash, p, rows, steps);
    VerifiesExactlyAsRead(hash, p, rows, steps);
    if Verifies(hash, p, l.rows) {
      forall i | 0 <= i < |l.rows| && l.seen[i] != i ensures l.seen[i] < i && Collides(hash, p, l, i) {
        OutOfTurnCollides(hash, p, l, i);
      }
    }
  }

  /** The rows row i's append had seen, and the rows it came after, walk back to two texts with one hash. */
  predicate Collides(hash: Hash, p: Platform, l: Log, i: nat)
    requires i < |l.rows| && i < |l.seen| && l.seen[i] <= i
  {
    Revisited(p, l, i).Some? && var (x, y) := Revisited(p, l, i).value; x != y && hash(x) == hash(y)
  }

  // ---------- with and without the lock ----------

  /** Appends under a lock: each inserts right after its read. */
  function Locked(entries: seq<AuditEntry>): (steps: seq<Step>)
    ensures |steps| == 2 * |entries|
  {
    if entries == [] then []
    else
      var n := |entries| - 1;
      Locked(entries[..n]) + [Read(entries[n]), Insert(n)]
  }

  function AppendedAll(hash: Hash, p: Platform, rows: seq<Row>, entries: seq<AuditEntry>): seq<Row> {
    if entries == [] then rows
    else
      var before := AppendedAll(hash, p, rows, entries[..|entries| - 1]);
      Appended(hash, p, before, entries[|entries| - 1], |before| + 1)
  }

  /** Under the lock the two calls amount to the single append, and every row is in turn. */
  lemma {:induction false} LockedIsAppended(hash: Hash, p: Platform, rows: seq<Row>, entries: seq<AuditEntry>)
    ensures var l := Play(hash, p, rows, Locked(entries));
      && l.rows == AppendedAll(hash, p, rows, entries)
      && |l.appenders| == |entries| && |l.seen| == |l.rows| && InTurn(l)
  {
    if entries != [] {
      var n := |entries| - 1;
      LockedIsAppended(hash, p, rows, entries[..n]);
      TwoMoreSteps(hash, p, rows, Locked(entries[..n]), Read(entries[n]), Insert(n));
    }
  }

  lemma TwoMoreSteps(hash: Hash, p: Platform, rows: seq<Row>, before: seq<Step>, a: Step, b: Step)
    ensures Play(hash, p, rows, before + [a, b]) == Taken(hash, p, Taken(hash, p, Play(hash, p, rows, before), a), b)
  {
    var steps := before + [a, b];
    var last := steps[..|steps| - 1];
    assert last[..|last| - 1] == before;
  }

  /** Two appends to an empty log that both read before either inserts: the log does not verify, whatever the hash. */
  lemma OverlapBreaksTheLog(hash: Hash, p: Platform, a: AuditEntry, b: AuditEntry)
    ensures var l := Play(hash, p, [], [Read(a), Read(b), Insert(0), Insert(1)]);
      |l.rows| == 2 && !Verifies(hash, p, l.rows)
  {
    TwoMoreSteps(hash, p, [], [], Read(a), Read(b));
    TwoMoreSteps(hash, p, [], [Read(a), Read(b)], Insert(0), Insert(1));
    assert [] + [Read(a), Read(b)] == [Read(a), Read(b)];
    assert [Read(a), Read(b)] + [Insert(0), Insert(1)] == [Read(a), Read(b), Insert(0), Insert(1)];
    var l := Play(hash, p, [], [Read(a), Read(b), Insert(0), Insert(1)]);
    assert l.rows == [NextRow(hash, p, [], a, 1), NextRow(hash, p, [], b, 2)];
    assert |PrevOf(l.rows, 1)| == 64;
    assert !LinkOk(l.rows, 1);
  }
}
