/**
  The canonical printer decides equality of JSON values: two values print alike exactly when they are
  equal with objects read as finite maps. The proof reads the text back with the parser.
 */
module JsonLaws {
  import opened Text
  import opened Json

  // ---------- reading back what was printed ----------

  /** What follows a value inside a document, or at its end. */
  predicate Delimited(rest: Str) {
    rest == [] || rest[0] == COMMA || rest[0] == CLOSE_BRACKET || rest[0] == CLOSE_BRACE
  }

  lemma UnhexDigitHexDigit(d: int)
    requires 0 <= d < 16
    ensures UnhexDigit(HexDigit(d)) == Some(d)
  {
  }

  lemma UnhexHex(c: CodeUnit)
    ensures Unhex4(Hex4(c)) == Some(c)
  {
    var x := c / 16;
    var y := x / 16;
    UnhexDigitHexDigit(c % 16);
    UnhexDigitHexDigit(x % 16);
    UnhexDigitHexDigit(y % 16);
    UnhexDigitHexDigit(y / 16);
    assert c == 16 * x + c % 16 && x == 16 * y + x % 16 && y == 16 * (y / 16) + y % 16;
  }

  lemma UnquoteOneUnit(c: CodeUnit, tail: Str)
    ensures Unquote(EscapeUnit(c) + tail) == Prepend(c, Unquote(tail))
  {
    if |EscapeUnit(c)| == 6 {
      UnquoteHexUnit(c, tail);
    } else if |EscapeUnit(c)| == 2 {
      UnquoteShortUnit(c, EscapeUnit(c)[1], tail);
    } else {
      UnquoteRawUnit(c, tail);
    }
  }

  lemma UnquoteShortUnit(c: CodeUnit, d: CodeUnit, tail: Str)
    requires EscapeUnit(c) == [BACKSLASH, d]
    ensures Unquote([BACKSLASH, d] + tail) == Prepend(c, Unquote(tail))
  {
    var t := [BACKSLASH, d] + tail;
    ShortEscapes(c, d);
    assert t[0] == BACKSLASH && t[1] == d && t[2..] == tail;
    assert Unquote(t) == Prepend(c, Unquote(t[2..]));
  }

  lemma ShortEscapes(c: CodeUnit, d: CodeUnit)
    requires EscapeUnit(c) == [BACKSLASH, d]
    ensures d != 117 && UnescapeUnit(d) == Some(c)
  {
    assert EscapeUnit(c)[1] == d;
  }

  lemma UnquoteHexUnit(c: CodeUnit, tail: Str)
    ensures Unquote([BACKSLASH, 117] + Hex4(c) + tail) == Prepend(c, Unquote(tail))
  {
    var t := [BACKSLASH, 117] + Hex4(c) + tail;
    assert t[0] == BACKSLASH && t[1] == 117 && t[2..6] == Hex4(c) && t[6..] == tail;
    UnhexHex(c);
  }

  lemma UnquoteRawUnit(c: CodeUnit, tail: Str)
    requires c != QUOTE && c != BACKSLASH
    ensures Unquote([c] + tail) == Prepend(c, Unquote(tail))
  {
    assert ([c] + tail)[1..] == tail;
  }

  lemma UnquoteSurrogatePair(s: Str, tail: Str)
    requires |s| >= 2 && IsHigh(s[0]) && IsLow(s[1])
    requires Unquote(tail).Some?
    ensures var r := Unquote(tail).value;
      Unquote(s[..2] + tail) == Some(Parsed(s[..2] + r.value, r.rest))
  {
    assert s[..2] + tail == [s[0]] + ([s[1]] + tail);
    UnquoteRawUnit(s[0], [s[1]] + tail);
    UnquoteRawUnit(s[1], tail);
    var r := Unquote(tail).value;
    assert [s[0]] + ([s[1]] + r.value) == s[..2] + r.value;
  }

  lemma {:induction false} UnquoteEscape(s: Str, rest: Str)
    ensures Unquote(Escape(s) + [QUOTE] + rest) == Some(Parsed(s, rest))
  {
    if s == [] {
      assert Escape(s) + [QUOTE] + rest == [QUOTE] + rest;
    } else {
      var n := if |s| >= 2 && IsHigh(s[0]) && IsLow(s[1]) then 2 else 1;
      UnquoteEscape(s[n..], rest);
      var t := Escape(s[n..]) + [QUOTE] + rest;
      EscapeSplits(s, n, rest);
      if n == 2 {
        UnquoteSurrogatePair(s, t);
      } else {
        UnquoteOneUnit(s[0], t);
      }
      assert s == s[..n] + s[n..];
    }
  }

  lemma EscapeSplits(s: Str, n: nat, rest: Str)
    requires s != [] && n == if |s| >= 2 && IsHigh(s[0]) && IsLow(s[1]) then 2 else 1
    ensures var t := Escape(s[n..]) + [QUOTE] + rest;
      Escape(s) + [QUOTE] + rest == if n == 2 then s[..2] + t else EscapeUnit(s[0]) + t
    ensures n == 1 ==> s[..n] == [s[0]]
  {
    var u := if n == 2 then s[..2] else EscapeUnit(s[0]);
    var e := Escape(s[n..]);
    assert Escape(s) == u + e;
    Assoc(u, e, [QUOTE]);
    Assoc(u, e + [QUOTE], rest);
  }

  lemma {:induction false} NumberRunEnds(t: Str, rest: Str)
    requires forall i :: 0 <= i < |t| ==> IsNumberUnit(t[i])
    requires Delimited(rest)
    ensures NumberRun(t + rest) == |t|
  {
    if t == [] {
      assert t + rest == rest;
    } else {
      NumberRunEnds(t[1..], rest);
      assert (t + rest)[1..] == t[1..] + rest;
    }
  }

  lemma StringifyHead(v: Json)
    requires WellFormed(v)
    ensures Stringify(v) != []
    ensures Stringify(v)[0] != CLOSE_BRACKET && Stringify(v)[0] != CLOSE_BRACE
  {
  }

  lemma ParseConstant(v: Json, rest: Str)
    requires v.Null? || v.Bool?
    ensures ParseValue(ScalarText(v) + rest) == Some(Parsed(v, rest))
  {
    var word := ScalarText(v);
    var t := word + rest;
    assert t[0] == word[0] && t[..|word|] == word && t[|word|..] == rest;
  }

  lemma ParseNumber(n: Str, rest: Str)
    requires IsNumberText(n) && Delimited(rest)
    ensures ParseValue(n + rest) == Some(Parsed(Num(n), rest))
  {
    var t := n + rest;
    NumberRunEnds(n, rest);
    assert t[0] == n[0] && t[..|n|] == n && t[|n|..] == rest;
  }

  lemma ParseText(s: Str, rest: Str)
    ensures ParseValue(Quote(s) + rest) == Some(Parsed(Text(s), rest))
  {
    UnquoteEscape(s, rest);
    var t := Quote(s) + rest;
    assert t[0] == QUOTE && t[1..] == Escape(s) + [QUOTE] + rest;
  }

  /** A bracketed text parses as its contents do. */
  lemma ParseBrackets(contents: Str, t: Str)
    requires t == [OPEN_BRACKET] + contents
    requires contents != [] && contents[0] != CLOSE_BRACKET
    ensures var vs := ParseItems(contents);
      ParseValue(t) == if vs.Some? then Some(Parsed(Arr(vs.value.value), vs.value.rest)) else None
  {
    assert t[0] == OPEN_BRACKET && t[1..] == contents;
  }

  lemma ParseBraces(contents: Str, t: Str)
    requires t == [OPEN_BRACE] + contents
    requires contents != [] && contents[0] != CLOSE_BRACE
    ensures var es := ParseEntries(contents);
      ParseValue(t) == if es.Some? then Some(Parsed(Obj(es.value.value), es.value.rest)) else None
  {
    assert t[0] == OPEN_BRACE && t[1..] == contents;
  }

  lemma ParseEmpty(rest: Str)
    ensures ParseValue([OPEN_BRACKET, CLOSE_BRACKET] + rest) == Some(Parsed(Arr([]), rest))
    ensures ParseValue([OPEN_BRACE, CLOSE_BRACE] + rest) == Some(Parsed(Obj([]), rest))
  {
    assert ([OPEN_BRACKET, CLOSE_BRACKET] + rest)[2..] == rest;
    assert ([OPEN_BRACE, CLOSE_BRACE] + rest)[2..] == rest;
  }

  lemma ParseArray(vs: seq<Json>, rest: Str)
    requires vs != [] && WellFormed(vs[0])
    requires ParseItems(StringifyItems(vs) + [CLOSE_BRACKET] + rest) == Some(Parsed(vs, rest))
    ensures ParseValue(Stringify(Arr(vs)) + rest) == Some(Parsed(Arr(vs), rest))
  {
    ArrayText(vs, rest);
    ParseBrackets(StringifyItems(vs) + [CLOSE_BRACKET] + rest, Stringify(Arr(vs)) + rest);
  }

  lemma ArrayText(vs: seq<Json>, rest: Str)
    requires vs != [] && WellFormed(vs[0])
    ensures var contents := StringifyItems(vs) + [CLOSE_BRACKET] + rest;
      Stringify(Arr(vs)) + rest == [OPEN_BRACKET] + contents && contents[0] != CLOSE_BRACKET
  {
    StringifyHead(vs[0]);
    assert StringifyItems(vs)[0] == Stringify(vs[0])[0];
  }

  lemma ParseObject(es: seq<Entry<Json>>, rest: Str)
    requires es != []
    requires ParseEntries(StringifyEntries(es) + [CLOSE_BRACE] + rest) == Some(Parsed(es, rest))
    ensures ParseValue(Stringify(Obj(es)) + rest) == Some(Parsed(Obj(es), rest))
  {
    ObjectText(es, rest);
    ParseBraces(StringifyEntries(es) + [CLOSE_BRACE] + rest, Stringify(Obj(es)) + rest);
  }

  lemma ObjectText(es: seq<Entry<Json>>, rest: Str)
    requires es != []
    ensures var contents := StringifyEntries(es) + [CLOSE_BRACE] + rest;
      Stringify(Obj(es)) + rest == [OPEN_BRACE] + contents && contents[0] == QUOTE
  {
    assert StringifyEntries(es)[0] == QUOTE;
  }

  /** JSON.parse inverts JSON.stringify on finite values, wherever the value stands in a document. */
  lemma {:induction false} ParseStringify(v: Json, rest: Str)
    requires WellFormed(v) && AllFinite(v) && Delimited(rest)
    ensures ParseValue(Stringify(v) + rest) == Some(Parsed(v, rest))
    decreases v, 0
  {
    match v
    case Arr(vs) =>
      if vs == [] {
        ParseEmpty(rest);
      } else {
        ParseStringifyItems(vs, rest);
        ParseArray(vs, rest);
      }
    case Obj(es) =>
      if es == [] {
        ParseEmpty(rest);
      } else {
        ParseStringifyEntries(es, rest);
        ParseObject(es, rest);
      }
    case Num(n) => ParseNumber(n, rest);
    case Text(s) => ParseText(s, rest);
    case _ => ParseConstant(v, rest);
  }

  lemma {:induction false} ParseStringifyItems(vs: seq<Json>, rest: Str)
    requires vs != [] && forall i :: 0 <= i < |vs| ==> WellFormed(vs[i]) && AllFinite(vs[i])
    ensures ParseItems(StringifyItems(vs) + [CLOSE_BRACKET] + rest) == Some(Parsed(vs, rest))
    decreases vs, 1
  {
    if |vs| == 1 {
      ParseStringify(vs[0], [CLOSE_BRACKET] + rest);
      ParseLastItem(vs[0], rest);
      assert vs == [vs[0]];
      Assoc(Stringify(vs[0]), [CLOSE_BRACKET], rest);
    } else {
      ParseStringifyItems(vs[1..], rest);
      var u := StringifyItems(vs[1..]) + [CLOSE_BRACKET] + rest;
      ParseStringify(vs[0], [COMMA] + u);
      ParseMoreItems(vs, rest);
    }
  }

  lemma ParseMoreItems(vs: seq<Json>, rest: Str)
    requires |vs| > 1
    requires var u := StringifyItems(vs[1..]) + [CLOSE_BRACKET] + rest;
      && ParseItems(u) == Some(Parsed(vs[1..], rest))
      && ParseValue(Stringify(vs[0]) + ([COMMA] + u)) == Some(Parsed(vs[0], [COMMA] + u))
    ensures ParseItems(StringifyItems(vs) + [CLOSE_BRACKET] + rest) == Some(Parsed(vs, rest))
  {
    ParseNextItem(vs[0], StringifyItems(vs[1..]) + [CLOSE_BRACKET] + rest);
    assert vs == [vs[0]] + vs[1..];
    SplitList(Stringify(vs[0]), StringifyItems(vs[1..]), [CLOSE_BRACKET], rest);
  }

  lemma ParseLastItem(v: Json, rest: Str)
    requires ParseValue(Stringify(v) + ([CLOSE_BRACKET] + rest)) == Some(Parsed(v, [CLOSE_BRACKET] + rest))
    ensures ParseItems(Stringify(v) + ([CLOSE_BRACKET] + rest)) == Some(Parsed([v], rest))
  {
    assert ([CLOSE_BRACKET] + rest)[1..] == rest;
  }

  lemma ParseNextItem(v: Json, u: Str)
    requires ParseValue(Stringify(v) + ([COMMA] + u)) == Some(Parsed(v, [COMMA] + u))
    requires ParseItems(u).Some?
    ensures ParseItems(Stringify(v) + ([COMMA] + u))
         == Some(Parsed([v] + ParseItems(u).value.value, ParseItems(u).value.rest))
  {
    assert ([COMMA] + u)[1..] == u;
  }

  lemma {:induction false} ParseStringifyEntries(es: seq<Entry<Json>>, rest: Str)
    requires es != [] && forall i :: 0 <= i < |es| ==> WellFormed(es[i].value) && AllFinite(es[i].value)
    ensures ParseEntries(StringifyEntries(es) + [CLOSE_BRACE] + rest) == Some(Parsed(es, rest))
    decreases es, 1
  {
    if |es| == 1 {
      ParseStringify(es[0].value, [CLOSE_BRACE] + rest);
      ParseLastEntry(es[0], rest);
      assert es == [es[0]];
    } else {
      ParseStringifyEntries(es[1..], rest);
      var u := StringifyEntries(es[1..]) + [CLOSE_BRACE] + rest;
      ParseStringify(es[0].value, [COMMA] + u);
      ParseNextEntry(es[0], u);
      assert es == [es[0]] + es[1..];
    }
    SplitEntries(es, rest);
  }

  lemma SplitEntries(es: seq<Entry<Json>>, rest: Str)
    requires es != []
    ensures StringifyEntries(es) + [CLOSE_BRACE] + rest
         == Quote(es[0].key) + [COLON] + Stringify(es[0].value)
            + if |es| == 1 then [CLOSE_BRACE] + rest
              else [COMMA] + (StringifyEntries(es[1..]) + [CLOSE_BRACE] + rest)
  {
    var first := Quote(es[0].key) + [COLON] + Stringify(es[0].value);
    if |es| == 1 {
      Assoc(first, [CLOSE_BRACE], rest);
    } else {
      SplitList(first, StringifyEntries(es[1..]), [CLOSE_BRACE], rest);
    }
  }

  lemma SplitList(first: Str, others: Str, close: Str, rest: Str)
    ensures first + [COMMA] + others + close + rest == first + ([COMMA] + (others + close + rest))
  {
    Assoc(first, [COMMA], others);
    Assoc(first, [COMMA] + others, close);
    Assoc(first, [COMMA] + others + close, rest);
    Assoc([COMMA], others, close);
    Assoc([COMMA], others + close, rest);
  }

  lemma ParseLastEntry(e: Entry<Json>, rest: Str)
    requires ParseValue(Stringify(e.value) + ([CLOSE_BRACE] + rest)) == Some(Parsed(e.value, [CLOSE_BRACE] + rest))
    ensures ParseEntries(Quote(e.key) + [COLON] + Stringify(e.value) + ([CLOSE_BRACE] + rest))
         == Some(Parsed([e], rest))
  {
    var r := [CLOSE_BRACE] + rest;
    ParseKey(e, r);
    assert r[1..] == rest;
  }

  lemma ParseNextEntry(e: Entry<Json>, u: Str)
    requires ParseValue(Stringify(e.value) + ([COMMA] + u)) == Some(Parsed(e.value, [COMMA] + u))
    requires ParseEntries(u).Some?
    ensures ParseEntries(Quote(e.key) + [COLON] + Stringify(e.value) + ([COMMA] + u))
         == Some(Parsed([e] + ParseEntries(u).value.value, ParseEntries(u).value.rest))
  {
    var r := [COMMA] + u;
    ParseKey(e, r);
    assert r[1..] == u;
  }

  lemma ParseKey(e: Entry<Json>, r: Str)
    ensures var t := Quote(e.key) + [COLON] + Stringify(e.value) + r;
      && t[0] == QUOTE
      && Unquote(t[1..]) == Some(Parsed(e.key, [COLON] + (Stringify(e.value) + r)))
      && ([COLON] + (Stringify(e.value) + r))[1..] == Stringify(e.value) + r
  {
    var t := Quote(e.key) + [COLON] + Stringify(e.value) + r;
    var u := [COLON] + (Stringify(e.value) + r);
    assert t[1..] == Escape(e.key) + [QUOTE] + u;
    UnquoteEscape(e.key, u);
  }

  lemma ParseInvertsStringify(v: Json)
    requires WellFormed(v) && AllFinite(v)
    ensures Parse(Stringify(v)) == Some(v)
  {
    ParseStringify(v, []);
    assert Stringify(v) + [] == Stringify(v);
  }

  // ---------- sorting by key ----------

  ghost predicate StrictlySorted<T>(es: seq<Entry<T>>) {
    forall i, j :: 0 <= i < j < |es| ==> Less(es[i].key, es[j].key)
  }

  ghost predicate Within<T>(a: seq<Entry<T>>, b: seq<Entry<T>>) {
    forall i :: 0 <= i < |a| ==> a[i] in b
  }

  lemma {:induction false} InsertAdds<T>(e: Entry<T>, es: seq<Entry<T>>)
    ensures e in Insert(e, es)
    ensures forall i :: 0 <= i < |es| ==> es[i] in Insert(e, es)
    ensures forall i :: 0 <= i < |Insert(e, es)| ==> Insert(e, es)[i] == e || Insert(e, es)[i] in es
  {
    if es != [] && !Less(e.key, es[0].key) {
      InsertAdds(e, es[1..]);
      var r := Insert(e, es[1..]);
      assert Insert(e, es) == [es[0]] + r;
      forall i | 0 < i < |es| ensures es[i] in [es[0]] + r {
        assert es[1..][i - 1] in r;
      }
      forall i | 0 <= i < |r| ensures r[i] == e || r[i] in es {
        assert r[i] == e || r[i] in es[1..];
      }
    }
  }

  lemma {:induction false} InsertSorted<T>(e: Entry<T>, es: seq<Entry<T>>)
    requires StrictlySorted(es)
    requires forall i :: 0 <= i < |es| ==> es[i].key != e.key
    ensures StrictlySorted(Insert(e, es))
  {
    if es != [] {
      LessTotal(e.key, es[0].key);
      if Less(e.key, es[0].key) {
        forall i | 1 <= i < |es| ensures Less(e.key, es[i].key) {
          LessTransitive(e.key, es[0].key, es[i].key);
        }
      } else {
        InsertSorted(e, es[1..]);
        InsertAdds(e, es[1..]);
        var r := Insert(e, es[1..]);
        forall i | 0 <= i < |r| ensures Less(es[0].key, r[i].key) {
          assert r[i] == e || r[i] in es[1..];
        }
      }
    }
  }

  lemma {:induction false} SortPermutes<T>(es: seq<Entry<T>>)
    ensures Within(Sort(es), es) && Within(es, Sort(es))
  {
    if es != [] {
      SortPermutes(es[1..]);
      var r := Sort(es[1..]);
      InsertAdds(es[0], r);
      var s := Insert(es[0], r);
      forall i | 0 <= i < |s| ensures s[i] in es {
        if s[i] != es[0] {
          var k :| 0 <= k < |r| && r[k] == s[i];
          assert r[k] in es[1..];
        }
      }
      forall i | 0 < i < |es| ensures es[i] in s {
        assert es[1..][i - 1] in r;
        var k :| 0 <= k < |r| && r[k] == es[i];
        assert r[k] in s;
      }
    }
  }

  lemma {:induction false} SortSorts<T>(es: seq<Entry<T>>)
    requires DistinctKeys(es)
    ensures StrictlySorted(Sort(es))
  {
    if es != [] {
      SortSorts(es[1..]);
      SortPermutes(es[1..]);
      var r := Sort(es[1..]);
      forall i | 0 <= i < |r| ensures r[i].key != es[0].key {
        assert r[i] in es[1..];
      }
      InsertSorted(es[0], r);
    }
  }

  lemma SortedKeysDistinct<T>(es: seq<Entry<T>>)
    requires StrictlySorted(es)
    ensures DistinctKeys(es)
  {
    forall i, j | 0 <= i < j < |es| ensures es[i].key != es[j].key {
      LessTotal(es[i].key, es[j].key);
    }
  }

  lemma {:induction false} SortedUnique<T>(a: seq<Entry<T>>, b: seq<Entry<T>>)
    requires StrictlySorted(a) && StrictlySorted(b)
    requires Within(a, b) && Within(b, a)
    ensures a == b
  {
    assert a != [] ==> a[0] in b;
    assert b != [] ==> b[0] in a;
    if a != [] && b != [] {
      SortedSameHead(a, b);
      SortedTailsWithin(a, b);
      SortedTailsWithin(b, a);
      SortedUnique(a[1..], b[1..]);
    }
  }

  lemma SortedTailsWithin<T>(a: seq<Entry<T>>, b: seq<Entry<T>>)
    requires a != [] && b != [] && a[0] == b[0] && StrictlySorted(a) && Within(a, b)
    ensures Within(a[1..], b[1..])
  {
    forall i | 0 <= i < |a[1..]| ensures a[1..][i] in b[1..] {
      LessTotal(a[0].key, a[i + 1].key);
      assert a[i + 1] in b;
      var k :| 0 <= k < |b| && b[k] == a[i + 1];
      assert b[1..][k - 1] == a[1..][i];
    }
  }

  lemma SortedSameHead<T>(a: seq<Entry<T>>, b: seq<Entry<T>>)
    requires a != [] && b != [] && StrictlySorted(a) && StrictlySorted(b)
    requires a[0] in b && b[0] in a
    ensures a[0] == b[0]
  {
    LessTotal(a[0].key, b[0].key);
  }

  // ---------- the canonical value ----------

  /** Objects in key order, infinities as null: the value whose plain text is the stable text. */
  function Canonical(v: Json): Json {
    match v
    case NonFinite => Null
    case Arr(vs) => Arr(CanonicalItems(vs))
    case Obj(es) => Obj(Sort(CanonicalEntries(es)))
    case _ => v
  }

  function CanonicalItems(vs: seq<Json>): (r: seq<Json>)
    ensures |r| == |vs| && forall i :: 0 <= i < |vs| ==> r[i] == Canonical(vs[i])
  {
    if vs == [] then [] else [Canonical(vs[0])] + CanonicalItems(vs[1..])
  }

  function CanonicalEntries(es: seq<Entry<Json>>): (r: seq<Entry<Json>>)
    ensures |r| == |es| && forall i :: 0 <= i < |es| ==> r[i] == Entry(es[i].key, Canonical(es[i].value))
  {
    if es == [] then [] else [Entry(es[0].key, Canonical(es[0].value))] + CanonicalEntries(es[1..])
  }

  ghost predicate PrintsAs(ts: seq<Entry<Str>>, cs: seq<Entry<Json>>) {
    |ts| == |cs| && forall i :: 0 <= i < |ts| ==> ts[i] == Entry(cs[i].key, Stringify(cs[i].value))
  }

  lemma {:induction false} InsertKeepsPrinting(t: Entry<Str>, c: Entry<Json>, ts: seq<Entry<Str>>, cs: seq<Entry<Json>>)
    requires PrintsAs(ts, cs) && t == Entry(c.key, Stringify(c.value))
    ensures PrintsAs(Insert(t, ts), Insert(c, cs))
  {
    if ts != [] && !Less(t.key, ts[0].key) {
      InsertKeepsPrinting(t, c, ts[1..], cs[1..]);
    }
  }

  lemma {:induction false} SortKeepsPrinting(ts: seq<Entry<Str>>, cs: seq<Entry<Json>>)
    requires PrintsAs(ts, cs)
    ensures PrintsAs(Sort(ts), Sort(cs))
  {
    if ts != [] {
      SortKeepsPrinting(ts[1..], cs[1..]);
      InsertKeepsPrinting(ts[0], cs[0], Sort(ts[1..]), Sort(cs[1..]));
    }
  }

  lemma {:induction false} JoinFields(ts: seq<Entry<Str>>, cs: seq<Entry<Json>>)
    requires PrintsAs(ts, cs)
    ensures Join(Fields(ts)) == StringifyEntries(cs)
  {
    if ts != [] {
      JoinFields(ts[1..], cs[1..]);
      assert Fields(ts)[1..] == Fields(ts[1..]);
    }
  }

  /** The canonical printer prints the canonical value plainly. */
  lemma {:induction false} StablePrintsCanonical(v: Json)
    ensures StableStringify(v) == Stringify(Canonical(v))
    decreases v, 0
  {
    match v
    case Arr(vs) => StableItemsPrint(vs);
    case Obj(es) =>
      StableEntriesPrint(es);
      SortKeepsPrinting(StableEntries(es), CanonicalEntries(es));
      JoinFields(Sort(StableEntries(es)), Sort(CanonicalEntries(es)));
    case _ =>
  }

  lemma {:induction false} StableItemsPrint(vs: seq<Json>)
    ensures Join(StableItems(vs)) == StringifyItems(CanonicalItems(vs))
    decreases vs, 1
  {
    if vs != [] {
      StablePrintsCanonical(vs[0]);
      StableItemsPrint(vs[1..]);
      assert StableItems(vs)[1..] == StableItems(vs[1..]);
      assert CanonicalItems(vs)[1..] == CanonicalItems(vs[1..]);
    }
  }

  lemma {:induction false} StableEntriesPrint(es: seq<Entry<Json>>)
    ensures PrintsAs(StableEntries(es), CanonicalEntries(es))
    decreases es, 1
  {
    if es != [] {
      StablePrintsCanonical(es[0].value);
      StableEntriesPrint(es[1..]);
    }
  }

  lemma {:induction false} CanonicalIsPlain(v: Json)
    requires WellFormed(v)
    ensures WellFormed(Canonical(v)) && AllFinite(Canonical(v))
  {
    match v
    case Arr(vs) =>
      forall i | 0 <= i < |vs| { CanonicalIsPlain(vs[i]); }
    case Obj(es) =>
      forall i | 0 <= i < |es| { CanonicalIsPlain(es[i].value); }
      var cs := CanonicalEntries(es);
      SortSorts(cs);
      SortPermutes(cs);
      SortedKeysDistinct(Sort(cs));
      var r := Sort(cs);
      forall i | 0 <= i < |r| ensures WellFormed(r[i].value) && AllFinite(r[i].value) {
        assert r[i] in cs;
      }
    case _ =>
  }

  // ---------- equality ----------

  lemma {:induction false} CanonicalDecides(a: Json, b: Json)
    requires WellFormed(a) && WellFormed(b) && AllFinite(a) && AllFinite(b)
    ensures Canonical(a) == Canonical(b) <==> SameValue(a, b)
    decreases a
  {
    match a
    case Arr(xs) =>
      if b.Arr? && |xs| == |b.items| {
        forall i | 0 <= i < |xs| { CanonicalDecides(xs[i], b.items[i]); }
        if SameValue(a, b) {
          assert CanonicalItems(xs) == CanonicalItems(b.items);
        }
      }
    case Obj(es) =>
      if b.Obj? {
        forall i, j | 0 <= i < |es| && 0 <= j < |b.entries|
          ensures Canonical(es[i].value) == Canonical(b.entries[j].value)
             <==> SameValue(es[i].value, b.entries[j].value)
        {
          CanonicalDecides(es[i].value, b.entries[j].value);
        }
        ObjectsDecide(es, b.entries);
      }
    case _ =>
  }

  lemma WithinTransitive<T>(a: seq<Entry<T>>, b: seq<Entry<T>>, c: seq<Entry<T>>)
    requires Within(a, b) && Within(b, c)
    ensures Within(a, c)
  {
    forall i | 0 <= i < |a| ensures a[i] in c {
      assert a[i] in b;
      var k :| 0 <= k < |b| && b[k] == a[i];
      assert b[k] in c;
    }
  }

  lemma ObjectsDecide(es: seq<Entry<Json>>, fs: seq<Entry<Json>>)
    requires DistinctKeys(es) && DistinctKeys(fs)
    requires forall i, j :: 0 <= i < |es| && 0 <= j < |fs| ==>
      (Canonical(es[i].value) == Canonical(fs[j].value) <==> SameValue(es[i].value, fs[j].value))
    ensures Canonical(Obj(es)) == Canonical(Obj(fs)) <==> SameValue(Obj(es), Obj(fs))
  {
    var cs, ds := CanonicalEntries(es), CanonicalEntries(fs);
    SortSorts(cs);
    SortSorts(ds);
    SortPermutes(cs);
    SortPermutes(ds);
    if Sort(cs) == Sort(ds) {
      WithinTransitive(cs, Sort(cs), ds);
      WithinTransitive(ds, Sort(ds), cs);
      EqualEntriesGiveSame(es, fs);
    }
    if SameValue(Obj(es), Obj(fs)) {
      SameGivesEqualEntries(es, fs);
      WithinTransitive(Sort(cs), cs, ds);
      WithinTransitive(Sort(cs), ds, Sort(ds));
      WithinTransitive(Sort(ds), ds, cs);
      WithinTransitive(Sort(ds), cs, Sort(cs));
      SortedUnique(Sort(cs), Sort(ds));
    }
  }

  lemma EqualEntriesGiveSame(es: seq<Entry<Json>>, fs: seq<Entry<Json>>)
    requires DistinctKeys(es) && DistinctKeys(fs)
    requires Within(CanonicalEntries(es), CanonicalEntries(fs)) && Within(CanonicalEntries(fs), CanonicalEntries(es))
    requires forall i, j :: 0 <= i < |es| && 0 <= j < |fs| ==>
      (Canonical(es[i].value) == Canonical(fs[j].value) <==> SameValue(es[i].value, fs[j].value))
    ensures SameValue(Obj(es), Obj(fs))
  {
    KeysWithin(es, fs);
    KeysWithin(fs, es);
    forall i | 0 <= i < |es| ensures SameUnder(es[i].key, es[i].value, fs) {
      assert CanonicalEntries(es)[i] in CanonicalEntries(fs);
      var j :| 0 <= j < |fs| && CanonicalEntries(fs)[j] == CanonicalEntries(es)[i];
      assert SameValue(es[i].value, fs[j].value);
    }
  }

  lemma KeysWithin(es: seq<Entry<Json>>, fs: seq<Entry<Json>>)
    requires Within(CanonicalEntries(es), CanonicalEntries(fs))
    ensures Keys(es) <= Keys(fs)
  {
    forall i | 0 <= i < |es| ensures es[i].key in Keys(fs) {
      assert CanonicalEntries(es)[i] in CanonicalEntries(fs);
      var j :| 0 <= j < |fs| && CanonicalEntries(fs)[j] == CanonicalEntries(es)[i];
      assert fs[j].key == es[i].key;
    }
  }

  lemma SameGivesEqualEntries(es: seq<Entry<Json>>, fs: seq<Entry<Json>>)
    requires SameValue(Obj(es), Obj(fs))
    requires forall i, j :: 0 <= i < |es| && 0 <= j < |fs| ==>
      (Canonical(es[i].value) == Canonical(fs[j].value) <==> SameValue(es[i].value, fs[j].value))
    ensures Within(CanonicalEntries(es), CanonicalEntries(fs)) && Within(CanonicalEntries(fs), CanonicalEntries(es))
  {
    var cs, ds := CanonicalEntries(es), CanonicalEntries(fs);
    forall i | 0 <= i < |es| ensures cs[i] in ds {
      assert es[i].key in Keys(es) && es[i].key in Keys(fs);
      var j :| 0 <= j < |fs| && fs[j].key == es[i].key;
      assert SameUnder(es[i].key, es[i].value, fs);
      assert ds[j] == cs[i];
    }
    forall j | 0 <= j < |fs| ensures ds[j] in cs {
      assert fs[j].key in Keys(fs) && fs[j].key in Keys(es);
      var i :| 0 <= i < |es| && es[i].key == fs[j].key;
      assert SameUnder(es[i].key, es[i].value, fs);
      assert cs[i] == ds[j];
    }
  }

  /** Infinities replaced by null, as JSON.stringify prints them. */
  function Finite(v: Json): Json {
    match v
    case NonFinite => Null
    case Arr(vs) => Arr(seq(|vs|, i requires 0 <= i < |vs| => Finite(vs[i])))
    case Obj(es) => Obj(seq(|es|, i requires 0 <= i < |es| => Entry(es[i].key, Finite(es[i].value))))
    case _ => v
  }

  lemma {:induction false} FiniteKeepsCanonical(v: Json)
    requires WellFormed(v)
    ensures WellFormed(Finite(v)) && AllFinite(Finite(v)) && Canonical(Finite(v)) == Canonical(v)
    ensures AllFinite(v) ==> Finite(v) == v
  {
    match v
    case Arr(vs) =>
      forall i | 0 <= i < |vs| { FiniteKeepsCanonical(vs[i]); }
      assert CanonicalItems(Finite(v).items) == CanonicalItems(vs);
    case Obj(es) =>
      forall i | 0 <= i < |es| { FiniteKeepsCanonical(es[i].value); }
      assert CanonicalEntries(Finite(v).entries) == CanonicalEntries(es);
    case _ =>
  }

  lemma {:induction false} FiniteKeepsSpelling(v: Json, printed: Str -> bool)
    requires Spelled(v, printed)
    ensures Spelled(Finite(v), printed)
  {
    match v
    case Arr(vs) =>
      forall i | 0 <= i < |vs| ensures Spelled(Finite(v).items[i], printed) { FiniteKeepsSpelling(vs[i], printed); }
    case Obj(es) =>
      forall i | 0 <= i < |es| ensures Spelled(Finite(v).entries[i].value, printed) { FiniteKeepsSpelling(es[i].value, printed); }
    case _ =>
  }

  /** Two values print alike exactly when, infinities read as null, they are equal up to key order. */
  lemma StableDecidesEquality(a: Json, b: Json)
    requires WellFormed(a) && WellFormed(b)
    ensures StableStringify(a) == StableStringify(b) <==> SameValue(Finite(a), Finite(b))
    ensures AllFinite(a) && AllFinite(b) ==> (StableStringify(a) == StableStringify(b) <==> SameValue(a, b))
  {
    StablePrintsCanonical(a);
    StablePrintsCanonical(b);
    CanonicalIsPlain(a);
    CanonicalIsPlain(b);
    ParseInvertsStringify(Canonical(a));
    ParseInvertsStringify(Canonical(b));
    FiniteKeepsCanonical(a);
    FiniteKeepsCanonical(b);
    CanonicalDecides(Finite(a), Finite(b));
  }

  /** Without the proviso on infinities it fails: 1e400 and null print alike. */
  lemma InfinityPrintsAsNull()
    ensures StableStringify(Arr([NonFinite])) == StableStringify(Arr([Null]))
    ensures !SameValue(Arr([NonFinite]), Arr([Null]))
  {
    assert !SameValue([NonFinite][0], [Null][0]);
  }

  lemma {:induction false} CanonicalIdempotent(v: Json)
    requires WellFormed(v)
    ensures Canonical(Canonical(v)) == Canonical(v)
  {
    match v
    case Arr(vs) =>
      forall i | 0 <= i < |vs| { CanonicalIdempotent(vs[i]); }
      assert CanonicalItems(CanonicalItems(vs)) == CanonicalItems(vs);
    case Obj(es) =>
      forall i | 0 <= i < |es| { CanonicalIdempotent(es[i].value); }
      var cs := CanonicalEntries(es);
      SortSorts(cs);
      SortPermutes(cs);
      var r := Sort(cs);
      forall i | 0 <= i < |r| ensures CanonicalEntries(r)[i] == r[i] {
        assert r[i] in cs;
      }
      assert CanonicalEntries(r) == r;
      SortedKeysDistinct(r);
      SortSorts(r);
      SortPermutes(r);
      SortedUnique(Sort(r), r);
    case _ =>
  }

  /** The canonical text is itself JSON, and reads back as the same value. */
  lemma StableTextReadsBack(v: Json)
    requires WellFormed(v) && AllFinite(v)
    ensures Parse(StableStringify(v)).Some? && SameValue(v, Parse(StableStringify(v)).value)
    ensures StableStringify(Parse(StableStringify(v)).value) == StableStringify(v)
  {
    StablePrintsCanonical(v);
    CanonicalIsPlain(v);
    ParseInvertsStringify(Canonical(v));
    CanonicalIdempotent(v);
    CanonicalDecides(v, Canonical(v));
    StablePrintsCanonical(Canonical(v));
  }

  // ---------- the spelling of canonical text ----------

  /** Every object in v has its keys in ascending order. */
  ghost predicate Ordered(v: Json) {
    match v
    case Arr(vs) => forall i :: 0 <= i < |vs| ==> Ordered(vs[i])
    case Obj(es) => StrictlySorted(es) && forall i :: 0 <= i < |es| ==> Ordered(es[i].value)
    case _ => true
  }

  /** The value whose plain text is printed has its keys in ascending order, at every depth. */
  lemma {:induction false} CanonicalIsOrdered(v: Json)
    requires WellFormed(v)
    ensures Ordered(Canonical(v)) && StableStringify(v) == Stringify(Canonical(v))
  {
    StablePrintsCanonical(v);
    match v
    case Arr(vs) =>
      forall i | 0 <= i < |vs| { CanonicalIsOrdered(vs[i]); }
    case Obj(es) =>
      forall i | 0 <= i < |es| { CanonicalIsOrdered(es[i].value); }
      var cs := CanonicalEntries(es);
      SortSorts(cs);
      SortPermutes(cs);
      var r := Sort(cs);
      forall i | 0 <= i < |r| ensures Ordered(r[i].value) {
        assert r[i] in cs;
      }
    case _ =>
  }

  /** The two-character escapes of RFC 8259, and what they stand for. */
  predicate ShortEscape(d: CodeUnit, c: CodeUnit) {
    || (d == c && c in {QUOTE, BACKSLASH, 47})
    || (d == 98 && c == 8) || (d == 102 && c == 12) || (d == 110 && c == 10) || (d == 114 && c == 13) || (d == 116 && c == 9)
  }

  predicate IsHexDigit(c: CodeUnit) { IsDigit(c) || 65 <= c <= 70 || 97 <= c <= 102 }

  function HexValue(c: CodeUnit): int
    requires IsHexDigit(c)
  {
    if IsDigit(c) then c - 48 else if c <= 70 then c - 55 else c - 87
  }

  /** A way RFC 8259 has of writing c between quotes: as itself, by a two-character escape, or by four digits. */
  predicate Spells(u: Str, c: CodeUnit) {
    || (|u| == 1 && u[0] == c && c >= 32 && c != QUOTE && c != BACKSLASH)
    || (|u| == 2 && u[0] == BACKSLASH && ShortEscape(u[1], c))
    || (|u| == 6 && u[0] == BACKSLASH && u[1] == 117 && (forall i :: 2 <= i < 6 ==> IsHexDigit(u[i]))
        && 4096 * HexValue(u[2]) + 256 * HexValue(u[3]) + 16 * HexValue(u[4]) + HexValue(u[5]) == c)
  }

  predicate HasCapitals(u: Str) { exists i :: 0 <= i < |u| && 65 <= u[i] <= 70 }

  /** A unit that is no surrogate is written in the shortest way there is; a lone surrogate by its small digits. */
  lemma EscapeIsShortest(c: CodeUnit)
    ensures Spells(EscapeUnit(c), c)
    ensures |EscapeUnit(c)| > 1 ==> !HasCapitals(EscapeUnit(c))
    ensures if IsHigh(c) || IsLow(c) then |EscapeUnit(c)| == 6 else forall u :: Spells(u, c) ==> |EscapeUnit(c)| <= |u|
  {
    if |EscapeUnit(c)| == 6 {
      HexIsSpelled(c);
    }
  }

  lemma HexIsSpelled(c: CodeUnit)
    requires EscapeUnit(c) == [BACKSLASH, 117] + Hex4(c)
    ensures Spells([BACKSLASH, 117] + Hex4(c), c) && !HasCapitals([BACKSLASH, 117] + Hex4(c))
  {
    var x := c / 16;
    var y := x / 16;
    assert Hex4(c) == [HexDigit(y / 16), HexDigit(y % 16), HexDigit(x % 16), HexDigit(c % 16)];
    HexDigitIsSmall(y / 16);
    HexDigitIsSmall(y % 16);
    HexDigitIsSmall(x % 16);
    HexDigitIsSmall(c % 16);
    assert c == 16 * x + c % 16 && x == 16 * y + x % 16 && y == 16 * (y / 16) + y % 16;
  }

  lemma HexDigitIsSmall(d: int)
    requires 0 <= d < 16
    ensures IsHexDigit(HexDigit(d)) && HexValue(HexDigit(d)) == d && !(65 <= HexDigit(d) <= 70)
  {
  }

  /** The length of a text once escaped: a unit of a surrogate pair counts one, any other what its escape takes. */
  function EscapedLength(s: Str, afterHigh: bool): nat {
    if s == [] then 0
    else
      var paired := (IsLow(s[0]) && afterHigh) || (IsHigh(s[0]) && |s| > 1 && IsLow(s[1]));
      (if paired then 1 else |EscapeUnit(s[0])|) + EscapedLength(s[1..], IsHigh(s[0]))
  }

  /** Surrogate pairs are left as they are, and nothing else escapes its escape. */
  lemma {:induction false} EscapeKeepsPairs(s: Str)
    ensures |Escape(s)| == EscapedLength(s, false)
  {
    if s == [] {
    } else if |s| >= 2 && IsHigh(s[0]) && IsLow(s[1]) {
      EscapeKeepsPairs(s[2..]);
      assert s[1..][1..] == s[2..];
    } else {
      EscapeKeepsPairs(s[1..]);
      if |s| > 1 && IsHigh(s[0]) {
        assert !IsLow(s[1..][0]);
      }
      AfterHighMattersToLow(s[1..]);
    }
  }

  lemma AfterHighMattersToLow(s: Str)
    ensures s == [] || !IsLow(s[0]) ==> EscapedLength(s, true) == EscapedLength(s, false)
  {
  }
}
