/** The agents' view of the kill-switch: the database row behind a short time-based cache that fails closed. */
module KillSwitchCache {
  import opened Json

  /** What a read of the kill_switch row would give. */
  datatype ReadReply = ReadFailed | NoRow | Row(active: bool)

  datatype CacheEntry = CacheEntry(value: bool, at: int)

  type Cache = Option<CacheEntry>

  /** One question to the switch: the clock in milliseconds, and the reply a read at that time would get. */
  datatype Query = Query(now: int, reply: ReadReply)

  /** How long an agent trusts what it read, unless it is configured otherwise. */
  const KILL_SWITCH_CACHE_MS := 2_000

  predicate Expired(cacheMs: int, cache: Cache, now: int) {
    cache.None? || now - cache.value.at >= cacheMs
  }

  function RowValue(reply: ReadReply): bool { reply.Row? && reply.active }

  class KillSwitch {
    const cacheMs: int
    var cache: Cache

    constructor (cacheMs: int := KILL_SWITCH_CACHE_MS)
      ensures this.cacheMs == cacheMs && cache == None
    {
      this.cacheMs, cache := cacheMs, None;
    }

    method IsActive(q: Query) returns (active: bool)
      modifies this
      ensures cache == After(cacheMs, old(cache), q)
      ensures active == Answer(cacheMs, old(cache), q)
    {
      if cache.Some? && q.now - cache.value.at < cacheMs {
        return cache.value.value;
      }
      match q.reply
      case ReadFailed => active := if cache.Some? then cache.value.value else true;
      case _ =>
        var value := RowValue(q.reply);
        cache := Some(CacheEntry(value, q.now));
        active := value;
    }
  }

  /** The cache after a question. */
  function After(cacheMs: int, cache: Cache, q: Query): Cache {
    if Expired(cacheMs, cache, q.now) && !q.reply.ReadFailed? then Some(CacheEntry(RowValue(q.reply), q.now)) else cache
  }

  function Answer(cacheMs: int, cache: Cache, q: Query): bool {
    var after := After(cacheMs, cache, q);
    after.None? || after.value.value
  }

  // ---------- histories ----------

  /** The cache after a history of questions, from an empty one. */
  function CacheAfter(cacheMs: int, qs: seq<Query>): Cache {
    if qs == [] then None else After(cacheMs, CacheAfter(cacheMs, qs[..|qs| - 1]), qs[|qs| - 1])
  }

  function AnswerAt(cacheMs: int, qs: seq<Query>, k: nat): bool
    requires k < |qs|
  {
    Answer(cacheMs, CacheAfter(cacheMs, qs[..k]), qs[k])
  }

  predicate Reads(cacheMs: int, qs: seq<Query>, k: nat)
    requires k < |qs|
  {
    Expired(cacheMs, CacheAfter(cacheMs, qs[..k]), qs[k].now)
  }

  /** Question k went to the database and got the row's state. */
  predicate ReadsWell(cacheMs: int, qs: seq<Query>, k: nat)
    requires k < |qs|
  {
    Reads(cacheMs, qs, k) && !qs[k].reply.ReadFailed?
  }

  predicate LatestRead(cacheMs: int, qs: seq<Query>, j: nat, n: nat)
    requires j < n <= |qs|
  {
    ReadsWell(cacheMs, qs, j) && forall i :: j < i < n ==> !ReadsWell(cacheMs, qs, i)
  }

  lemma CacheOfPrefix(cacheMs: int, qs: seq<Query>, n: nat)
    requires n < |qs|
    ensures CacheAfter(cacheMs, qs[..n + 1]) == After(cacheMs, CacheAfter(cacheMs, qs[..n]), qs[n])
  {
    assert qs[..n + 1][..n] == qs[..n];
  }

  /** The cache holds the latest successful read, and nothing before the first one. */
  lemma {:induction false} CacheIsLatestRead(cacheMs: int, qs: seq<Query>, n: nat)
    requires n <= |qs|
    ensures var c := CacheAfter(cacheMs, qs[..n]);
      && (c.None? ==> forall i :: 0 <= i < n ==> !ReadsWell(cacheMs, qs, i))
      && (c.Some? ==> exists j :: 0 <= j < n && LatestRead(cacheMs, qs, j, n) && c == Some(CacheEntry(RowValue(qs[j].reply), qs[j].now)))
  {
    if n > 0 {
      CacheIsLatestRead(cacheMs, qs, n - 1);
      CacheOfPrefix(cacheMs, qs, n - 1);
      if ReadsWell(cacheMs, qs, n - 1) {
        assert LatestRead(cacheMs, qs, n - 1, n);
      } else if CacheAfter(cacheMs, qs[..n]).Some? {
        var j :| 0 <= j < n - 1 && LatestRead(cacheMs, qs, j, n - 1)
          && CacheAfter(cacheMs, qs[..n]) == Some(CacheEntry(RowValue(qs[j].reply), qs[j].now));
        assert LatestRead(cacheMs, qs, j, n);
      }
    }
  }

  /** Every answer is the value of the latest successful read, its own included, or true when there is none. */
  lemma AnswerIsLatestRead(cacheMs: int, qs: seq<Query>, k: nat)
    requires k < |qs|
    ensures (forall i :: 0 <= i <= k ==> !ReadsWell(cacheMs, qs, i)) ==> AnswerAt(cacheMs, qs, k)
    ensures forall j :: 0 <= j <= k && LatestRead(cacheMs, qs, j, k + 1) ==> AnswerAt(cacheMs, qs, k) == RowValue(qs[j].reply)
  {
    CacheIsLatestRead(cacheMs, qs, k + 1);
    CacheOfPrefix(cacheMs, qs, k);
    var c := CacheAfter(cacheMs, qs[..k + 1]);
    if c.Some? {
      var l :| 0 <= l < k + 1 && LatestRead(cacheMs, qs, l, k + 1) && c == Some(CacheEntry(RowValue(qs[l].reply), qs[l].now));
      forall j | 0 <= j <= k && LatestRead(cacheMs, qs, j, k + 1) ensures qs[j] == qs[l] {
        assert !(j < l) && !(l < j);
      }
    }
  }

  /** Question k is answered with a value read less than cacheMs ago, or just now. */
  predicate Fresh(cacheMs: int, qs: seq<Query>, k: nat, j: nat)
    requires j <= k < |qs|
  {
    && LatestRead(cacheMs, qs, j, k + 1)
    && AnswerAt(cacheMs, qs, k) == RowValue(qs[j].reply)
    && (j == k || qs[k].now - qs[j].now < cacheMs)
  }

  lemma OneLatestRead(cacheMs: int, qs: seq<Query>, i: nat, j: nat, n: nat)
    requires i < n <= |qs| && j < n && LatestRead(cacheMs, qs, i, n) && LatestRead(cacheMs, qs, j, n)
    ensures i == j
  {
  }

  /** An answer is stale, or a guess, exactly when its own read failed. */
  lemma {:induction false} FreshUnlessReadFails(cacheMs: int, qs: seq<Query>, k: nat)
    requires k < |qs|
    ensures (exists j :: 0 <= j <= k && Fresh(cacheMs, qs, k, j)) <==> !(Reads(cacheMs, qs, k) && qs[k].reply.ReadFailed?)
  {
    if Reads(cacheMs, qs, k) && qs[k].reply.ReadFailed? {
      forall j | 0 <= j <= k ensures !Fresh(cacheMs, qs, k, j) {
        StaleWhenReadFails(cacheMs, qs, k, j);
      }
    } else if ReadsWell(cacheMs, qs, k) {
      assert Fresh(cacheMs, qs, k, k);
    } else {
      CacheIsLatestRead(cacheMs, qs, k);
      var j :| 0 <= j < k && LatestRead(cacheMs, qs, j, k)
        && CacheAfter(cacheMs, qs[..k]) == Some(CacheEntry(RowValue(qs[j].reply), qs[j].now));
      assert LatestRead(cacheMs, qs, j, k + 1);
      assert Fresh(cacheMs, qs, k, j);
    }
  }

  lemma {:induction false} StaleWhenReadFails(cacheMs: int, qs: seq<Query>, k: nat, j: nat)
    requires j <= k < |qs| && Reads(cacheMs, qs, k) && qs[k].reply.ReadFailed?
    ensures !Fresh(cacheMs, qs, k, j)
  {
    if j < k && LatestRead(cacheMs, qs, j, k + 1) {
      CacheIsLatestRead(cacheMs, qs, k);
      var l :| 0 <= l < k && LatestRead(cacheMs, qs, l, k)
        && CacheAfter(cacheMs, qs[..k]) == Some(CacheEntry(RowValue(qs[l].reply), qs[l].now));
      OneLatestRead(cacheMs, qs, j, l, k);
    }
  }

  // ---------- load on the database ----------

  /** How many of the first n questions read the row. */
  function GoodReads(cacheMs: int, qs: seq<Query>, n: nat): nat
    requires n <= |qs|
  {
    if n == 0 then 0 else GoodReads(cacheMs, qs, n - 1) + if ReadsWell(cacheMs, qs, n - 1) then 1 else 0
  }

  /** Two successive successful reads are at least cacheMs apart, even under a clock that jumps. */
  lemma ReadsAreApart(cacheMs: int, qs: seq<Query>, i: nat, j: nat)
    requires i < j < |qs| && LatestRead(cacheMs, qs, i, j) && ReadsWell(cacheMs, qs, j)
    ensures qs[j].now - qs[i].now >= cacheMs
  {
    CacheIsLatestRead(cacheMs, qs, j);
    var l :| 0 <= l < j && LatestRead(cacheMs, qs, l, j)
      && CacheAfter(cacheMs, qs[..j]) == Some(CacheEntry(RowValue(qs[l].reply), qs[l].now));
    assert !(i < l) && !(l < i);
  }

  /** From a first successful read to the latest, there are at most one per cacheMs of elapsed time, plus one. */
  lemma {:induction false} ReadsAreBounded(cacheMs: nat, qs: seq<Query>, first: nat, last: nat)
    requires first <= last < |qs| && ReadsWell(cacheMs, qs, first) && ReadsWell(cacheMs, qs, last)
    ensures (GoodReads(cacheMs, qs, last + 1) - GoodReads(cacheMs, qs, first + 1)) * cacheMs <= qs[last].now - qs[first].now
    decreases last
  {
    if first < last {
      var previous := PreviousRead(cacheMs, qs, first, last);
      ReadsAreBounded(cacheMs, qs, first, previous);
      NoReadsBetween(cacheMs, qs, previous, last);
      ReadsAreApart(cacheMs, qs, previous, last);
      var n := GoodReads(cacheMs, qs, previous + 1) - GoodReads(cacheMs, qs, first + 1);
      assert (n + 1) * cacheMs == n * cacheMs + cacheMs;
    }
  }

  lemma {:induction false} PreviousRead(cacheMs: int, qs: seq<Query>, first: nat, last: nat) returns (p: nat)
    requires first < last < |qs| && ReadsWell(cacheMs, qs, first)
    ensures first <= p < last && LatestRead(cacheMs, qs, p, last)
  {
    if ReadsWell(cacheMs, qs, last - 1) {
      p := last - 1;
    } else {
      p := PreviousRead(cacheMs, qs, first, last - 1);
    }
  }

  lemma {:induction false} NoReadsBetween(cacheMs: int, qs: seq<Query>, p: nat, n: nat)
    requires p < n <= |qs| && LatestRead(cacheMs, qs, p, n)
    ensures GoodReads(cacheMs, qs, n) == GoodReads(cacheMs, qs, p + 1)
    decreases n
  {
    if p + 1 < n {
      assert LatestRead(cacheMs, qs, p, n - 1);
      NoReadsBetween(cacheMs, qs, p, n - 1);
    }
  }
}
