/**
  Calls of the cached kill-switch that overlap. A call looks at the clock and at the cache and, when what it finds is
  too old, awaits a read; other calls may begin and end before that read is in. A read is remembered under the time
  its call began.
 */
module KillSwitchOverlap {
  import opened Json
  import opened KillSwitchCache

  datatype Step = Begin(now: int) | Finish(call: nat, reply: ReadReply)

  /** A call answered from the cache, awaiting its read, or answered after it. */
  datatype Call =
    | FromCache(now: int, value: bool)
    | Reading(now: int)
    | AfterRead(now: int, reply: ReadReply, value: bool)

  /** The cache, the calls in the order they began, and those whose read came in, in the order it did. */
  datatype Switch = Switch(cache: Cache, calls: seq<Call>, landed: seq<nat>)

  function Taken(cacheMs: int, s: Switch, step: Step): Switch {
    match step
    case Begin(now) =>
      s.(calls := s.calls + [if Expired(cacheMs, s.cache, now) then Reading(now) else FromCache(now, s.cache.value.value)])
    case Finish(k, reply) =>
      if k >= |s.calls| || !s.calls[k].Reading? then s
      else
        var now := s.calls[k].now;
        if reply.ReadFailed? then
          s.(calls := s.calls[k := AfterRead(now, reply, if s.cache.Some? then s.cache.value.value else true)])
        else
          Switch(Some(CacheEntry(RowValue(reply), now)), s.calls[k := AfterRead(now, reply, RowValue(reply))], s.landed + [k])
  }

  function Play(cacheMs: int, steps: seq<Step>): Switch {
    if steps == [] then Switch(None, [], [])
    else Taken(cacheMs, Play(cacheMs, steps[..|steps| - 1]), steps[|steps| - 1])
  }

  /** Call j got the row's state from the database. */
  predicate Read(s: Switch, j: nat) { j < |s.calls| && s.calls[j].AfterRead? && !s.calls[j].reply.ReadFailed? }

  /** Call k's answer is what call j read. */
  predicate Agrees(s: Switch, k: nat, j: nat)
    requires k < |s.calls| && !s.calls[k].Reading?
  {
    Read(s, j) && s.calls[k].value == RowValue(s.calls[j].reply)
  }

  /** Call k answered with its own read, or with that of an earlier call begun less than cacheMs before it. */
  predicate FreshFrom(cacheMs: int, s: Switch, k: nat, j: nat)
    requires k < |s.calls| && !s.calls[k].Reading?
  {
    Agrees(s, k, j) && (j == k || (j < k && s.calls[k].now - s.calls[j].now < cacheMs))
  }

  predicate FailedToRead(s: Switch, k: nat) { k < |s.calls| && s.calls[k].AfterRead? && s.calls[k].reply.ReadFailed? }

  // ---------- what holds of any overlap ----------

  ghost predicate Grounded(cacheMs: int, s: Switch, k: nat)
    requires k < |s.calls|
  {
    !s.calls[k].Reading? ==>
      if FailedToRead(s, k) then s.calls[k].value || exists j :: Agrees(s, k, j)
      else exists j :: FreshFrom(cacheMs, s, k, j)
  }

  /** The cache is what the read that landed last says, under the time its call began. */
  ghost predicate CacheIsLastLanded(s: Switch) {
    && (s.landed == [] <==> s.cache.None?)
    && (forall i :: 0 <= i < |s.landed| ==> Read(s, s.landed[i]))
    && (s.cache.Some? ==>
          var last := s.calls[s.landed[|s.landed| - 1]]; s.cache.value == CacheEntry(RowValue(last.reply), last.now))
  }

  ghost predicate Sound(cacheMs: int, s: Switch) {
    CacheIsLastLanded(s) && forall k :: 0 <= k < |s.calls| ==> Grounded(cacheMs, s, k)
  }

  predicate Continues(s: Switch, t: Switch) {
    |s.calls| <= |t.calls| && forall k :: 0 <= k < |s.calls| && !s.calls[k].Reading? ==> t.calls[k] == s.calls[k]
  }

  lemma StaysGrounded(cacheMs: int, s: Switch, t: Switch, k: nat)
    requires Continues(s, t) && k < |s.calls| && !s.calls[k].Reading? && Grounded(cacheMs, s, k)
    ensures Grounded(cacheMs, t, k)
  {
    if FailedToRead(s, k) {
      if !s.calls[k].value {
        var j :| Agrees(s, k, j);
        assert Agrees(t, k, j);
      }
    } else {
      var j :| FreshFrom(cacheMs, s, k, j);
      assert FreshFrom(cacheMs, t, k, j);
    }
  }

  lemma BeginKeeps(cacheMs: int, s: Switch, now: int)
    requires Sound(cacheMs, s)
    ensures Sound(cacheMs, Taken(cacheMs, s, Begin(now)))
  {
    var t, n := Taken(cacheMs, s, Begin(now)), |s.calls|;
    forall k | 0 <= k < |t.calls| ensures Grounded(cacheMs, t, k) {
      if k < n {
        assert t.calls[k] == s.calls[k];
        if !s.calls[k].Reading? {
          StaysGrounded(cacheMs, s, t, k);
        }
      } else if !t.calls[n].Reading? {
        assert FreshFrom(cacheMs, t, n, s.landed[|s.landed| - 1]);
      }
    }
  }

  lemma FinishKeeps(cacheMs: int, s: Switch, k: nat, reply: ReadReply)
    requires Sound(cacheMs, s) && k < |s.calls| && s.calls[k].Reading?
    ensures Sound(cacheMs, Taken(cacheMs, s, Finish(k, reply)))
  {
    var t := Taken(cacheMs, s, Finish(k, reply));
    forall i | 0 <= i < |t.calls| ensures Grounded(cacheMs, t, i) {
      if i == k {
        if !reply.ReadFailed? {
          assert FreshFrom(cacheMs, t, k, k);
        } else if s.cache.Some? {
          assert Agrees(t, k, s.landed[|s.landed| - 1]);
        }
      } else if !s.calls[i].Reading? {
        StaysGrounded(cacheMs, s, t, i);
      }
    }
  }

  lemma {:induction false} PlayIsSound(cacheMs: int, steps: seq<Step>)
    ensures Sound(cacheMs, Play(cacheMs, steps))
  {
    if steps != [] {
      var before, step := steps[..|steps| - 1], steps[|steps| - 1];
      PlayIsSound(cacheMs, before);
      var s := Play(cacheMs, before);
      match step
      case Begin(now) => BeginKeeps(cacheMs, s, now);
      case Finish(k, reply) =>
        if k < |s.calls| && s.calls[k].Reading? {
          FinishKeeps(cacheMs, s, k, reply);
        }
    }
  }

  /**
    However calls overlap: an answer is what its own read, or one begun less than cacheMs before it, says. Only when
    its own read failed may it be older, and then it is still what some call read, or true.
   */
  lemma AnswersAreFresh(cacheMs: int, steps: seq<Step>, k: nat)
    requires var s := Play(cacheMs, steps); k < |s.calls| && !s.calls[k].Reading?
    ensures var s := Play(cacheMs, steps);
      if FailedToRead(s, k) then s.calls[k].value || exists j :: Agrees(s, k, j)
      else exists j :: FreshFrom(cacheMs, s, k, j)
  {
    PlayIsSound(cacheMs, steps);
    assert Grounded(cacheMs, Play(cacheMs, steps), k);
  }

  /** A call goes to the database exactly when no read has landed, or the one that landed last began cacheMs ago or more. */
  lemma GoesToDatabaseExactly(cacheMs: int, steps: seq<Step>, now: int)
    ensures var s, t := Play(cacheMs, steps), Play(cacheMs, steps + [Begin(now)]);
      && |t.calls| == |s.calls| + 1
      && (forall i :: 0 <= i < |s.landed| ==> s.landed[i] < |s.calls|)
      && (t.calls[|s.calls|].Reading? <==> s.landed == [] || now - s.calls[s.landed[|s.landed| - 1]].now >= cacheMs)
  {
    PlayIsSound(cacheMs, steps);
    assert (steps + [Begin(now)])[..|steps|] == steps;
  }

  // ---------- what overlap gives up ----------

  /**
    Two calls a millisecond apart both read, and the older read, landing last, puts off in place of on: a third call
    is told off, although the read begun latest has landed and found the switch on.
   */
  lemma OlderReadOverwrites(cacheMs: int)
    requires cacheMs > 2
    ensures var s := Play(cacheMs, [Begin(0), Begin(1), Finish(1, Row(true)), Finish(0, Row(false)), Begin(2)]);
      s.calls == [AfterRead(0, Row(false), false), AfterRead(1, Row(true), true), FromCache(2, false)] && s.landed == [1, 0]
  {
    var begun, landed := [Begin(0), Begin(1)], [Finish(1, Row(true)), Finish(0, Row(false))];
    TwoMore(cacheMs, [], Begin(0), Begin(1));
    TwoMore(cacheMs, begun, Finish(1, Row(true)), Finish(0, Row(false)));
    assert [] + begun == begun;
    assert begun + landed == [Begin(0), Begin(1), Finish(1, Row(true)), Finish(0, Row(false))];
    assert [Begin(0), Begin(1), Finish(1, Row(true)), Finish(0, Row(false)), Begin(2)][..4] == begun + landed;
  }

  // ---------- one call after the other ----------

  /** Each call is over before the next begins. */
  function OneByOne(qs: seq<Query>): (steps: seq<Step>)
    ensures |steps| == 2 * |qs|
  {
    if qs == [] then []
    else
      var n := |qs| - 1;
      OneByOne(qs[..n]) + [Begin(qs[n].now), Finish(n, qs[n].reply)]
  }

  lemma TwoMore(cacheMs: int, before: seq<Step>, a: Step, b: Step)
    ensures Play(cacheMs, before + [a, b]) == Taken(cacheMs, Taken(cacheMs, Play(cacheMs, before), a), b)
  {
    var steps := before + [a, b];
    var last := steps[..|steps| - 1];
    assert last[..|last| - 1] == before;
  }

  /** Then the calls and the cache are those of the questions asked in order. */
  lemma {:induction false} OneByOneIsSequential(cacheMs: int, qs: seq<Query>)
    ensures var s := Play(cacheMs, OneByOne(qs));
      && s.cache == CacheAfter(cacheMs, qs) && |s.calls| == |qs|
      && forall k :: 0 <= k < |qs| ==> !s.calls[k].Reading? && s.calls[k].value == AnswerAt(cacheMs, qs, k)
  {
    if qs != [] {
      var n := |qs| - 1;
      var before, q := qs[..n], qs[n];
      OneByOneIsSequential(cacheMs, before);
      TwoMore(cacheMs, OneByOne(before), Begin(q.now), Finish(n, q.reply));
      forall k | 0 <= k < n ensures AnswerAt(cacheMs, qs, k) == AnswerAt(cacheMs, before, k) {
        assert qs[..k] == before[..k];
      }
    }
  }
}
