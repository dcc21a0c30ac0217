/**
  JSON values and the three ways the bridge turns them into text or compares them:
  JSON.stringify, stableStringify, and JSON.parse on what the first two print.
 */
module Json {
  import opened Text

  datatype Option<+T> = None | Some(value: T)

  datatype Entry<+T> = Entry(key: Str, value: T)

  /**
    A number is kept as the text JSON.stringify prints for it; that text is a function of the number
    and determines it. `NonFinite` is an infinity, which JSON.parse does return (on 1e400) and
    JSON.stringify prints as null. An object keeps its entries in insertion order.
   */
  datatype Json =
    | Null
    | Bool(b: bool)
    | Num(text: Str)
    | NonFinite
    | Text(s: Str)
    | Arr(items: seq<Json>)
    | Obj(entries: seq<Entry<Json>>)

  // ---------- well-formed values ----------

  predicate DistinctKeys<T>(es: seq<Entry<T>>) {
    forall i, j :: 0 <= i < j < |es| ==> es[i].key != es[j].key
  }

  /** The characters number texts are made of. */
  predicate IsNumberUnit(c: CodeUnit) { IsDigit(c) || c == 43 || c == DASH || c == 46 || c == 69 || c == 101 }

  /** Wide enough for every text JSON.stringify prints for a number; which of these it prints is the platform's affair. */
  predicate IsNumberText(t: Str) {
    t != [] && (IsDigit(t[0]) || t[0] == DASH) && forall i :: 0 <= i < |t| ==> IsNumberUnit(t[i])
  }

  /** Number texts are made of number characters, keys of an object are distinct. */
  predicate WellFormed(v: Json) {
    match v
    case Num(t) => IsNumberText(t)
    case Arr(vs) => forall i :: 0 <= i < |vs| ==> WellFormed(vs[i])
    case Obj(es) => DistinctKeys(es) && forall i :: 0 <= i < |es| ==> WellFormed(es[i].value)
    case _ => true
  }

  /** Every number of v is spelled the way JSON.stringify spells it. */
  predicate Spelled(v: Json, printed: Str -> bool) {
    match v
    case Num(t) => printed(t)
    case Arr(vs) => forall i :: 0 <= i < |vs| ==> Spelled(vs[i], printed)
    case Obj(es) => forall i :: 0 <= i < |es| ==> Spelled(es[i].value, printed)
    case _ => true
  }

  /** The values a JavaScript program can hold. */
  predicate Genuine(v: Json, printed: Str -> bool) { WellFormed(v) && Spelled(v, printed) }

  predicate AllFinite(v: Json) {
    match v
    case NonFinite => false
    case Arr(vs) => forall i :: 0 <= i < |vs| ==> AllFinite(vs[i])
    case Obj(es) => forall i :: 0 <= i < |es| ==> AllFinite(es[i].value)
    case _ => true
  }

  /** Equality of JSON values with objects read as finite maps. */
  ghost predicate SameValue(a: Json, b: Json)
    decreases a, 0
  {
    match a
    case Arr(xs) =>
      b.Arr? && |xs| == |b.items| && forall i :: 0 <= i < |xs| ==> SameValue(xs[i], b.items[i])
    case Obj(es) =>
      && b.Obj?
      && Keys(es) == Keys(b.entries)
      && (forall i :: 0 <= i < |es| ==> SameUnder(es[i].key, es[i].value, b.entries))
    case _ => a == b
  }

  ghost predicate SameUnder(key: Str, a: Json, es: seq<Entry<Json>>)
    decreases a, 1
  {
    forall j :: 0 <= j < |es| && es[j].key == key ==> SameValue(a, es[j].value)
  }

  function Keys<T>(es: seq<Entry<T>>): set<Str> {
    set i | 0 <= i < |es| :: es[i].key
  }

  /** The value under a key. */
  function Lookup(es: seq<Entry<Json>>, key: Str): Option<Json> {
    if es == [] then None else if es[0].key == key then Some(es[0].value) else Lookup(es[1..], key)
  }

  // ---------- strings, RFC 8259 section 7 ----------

  predicate IsHigh(c: CodeUnit) { 0xD800 <= c <= 0xDBFF }

  predicate IsLow(c: CodeUnit) { 0xDC00 <= c <= 0xDFFF }

  function HexDigit(d: int): CodeUnit
    requires 0 <= d < 16
  {
    if d < 10 then 48 + d else 87 + d
  }

  function Hex4(c: CodeUnit): (h: Str)
    ensures |h| == 4
  {
    [HexDigit(c / 16 / 16 / 16), HexDigit(c / 16 / 16 % 16), HexDigit(c / 16 % 16), HexDigit(c % 16)]
  }

  function EscapeUnit(c: CodeUnit): Str {
    if c == 8 then [BACKSLASH, 98]
    else if c == 9 then [BACKSLASH, 116]
    else if c == 10 then [BACKSLASH, 110]
    else if c == 12 then [BACKSLASH, 102]
    else if c == 13 then [BACKSLASH, 114]
    else if c == QUOTE || c == BACKSLASH then [BACKSLASH, c]
    else if c < 32 || IsHigh(c) || IsLow(c) then [BACKSLASH, 117] + Hex4(c)
    else [c]
  }

  /** JSON.stringify of a string body: surrogate pairs stay as they are, a lone surrogate is escaped. */
  function Escape(s: Str): Str {
    if s == [] then []
    else if |s| >= 2 && IsHigh(s[0]) && IsLow(s[1]) then s[..2] + Escape(s[2..])
    else EscapeUnit(s[0]) + Escape(s[1..])
  }

  function Quote(s: Str): Str {
    [QUOTE] + Escape(s) + [QUOTE]
  }

  // ---------- printing ----------

  const NULL_TEXT: Str := [110, 117, 108, 108]
  const TRUE_TEXT: Str := [116, 114, 117, 101]
  const FALSE_TEXT: Str := [102, 97, 108, 115, 101]

  /** What both printers do with everything that is neither an array nor an object. */
  function ScalarText(v: Json): Str
    requires !v.Arr? && !v.Obj?
  {
    match v
    case Null => NULL_TEXT
    case NonFinite => NULL_TEXT
    case Bool(b) => if b then TRUE_TEXT else FALSE_TEXT
    case Num(t) => t
    case Text(s) => Quote(s)
  }

  /** JSON.stringify(value): entries in insertion order. */
  function Stringify(v: Json): Str {
    match v
    case Arr(vs) => [OPEN_BRACKET] + StringifyItems(vs) + [CLOSE_BRACKET]
    case Obj(es) => [OPEN_BRACE] + StringifyEntries(es) + [CLOSE_BRACE]
    case _ => ScalarText(v)
  }

  function StringifyItems(vs: seq<Json>): Str {
    if vs == [] then []
    else if |vs| == 1 then Stringify(vs[0])
    else Stringify(vs[0]) + [COMMA] + StringifyItems(vs[1..])
  }

  function StringifyEntries(es: seq<Entry<Json>>): Str {
    if es == [] then []
    else if |es| == 1 then Quote(es[0].key) + [COLON] + Stringify(es[0].value)
    else Quote(es[0].key) + [COLON] + Stringify(es[0].value) + [COMMA] + StringifyEntries(es[1..])
  }

  function Insert<T>(e: Entry<T>, es: seq<Entry<T>>): seq<Entry<T>> {
    if es == [] || Less(e.key, es[0].key) then [e] + es else [es[0]] + Insert(e, es[1..])
  }

  /** Object.keys(obj).sort(), each key carrying what belongs to it. */
  function Sort<T>(es: seq<Entry<T>>): (r: seq<Entry<T>>)
  {
    if es == [] then [] else Insert(es[0], Sort(es[1..]))
  }

  function Join(ts: seq<Str>): Str {
    if ts == [] then [] else if |ts| == 1 then ts[0] else ts[0] + [COMMA] + Join(ts[1..])
  }

  function Fields(ts: seq<Entry<Str>>): (r: seq<Str>)
    ensures |r| == |ts|
  {
    if ts == [] then [] else [Quote(ts[0].key) + [COLON] + ts[0].value] + Fields(ts[1..])
  }

  /** The canonical printer: schemas.ts stableStringify, and canonical in verify.ts. */
  function StableStringify(v: Json): Str {
    match v
    case Arr(vs) => [OPEN_BRACKET] + Join(StableItems(vs)) + [CLOSE_BRACKET]
    case Obj(es) => [OPEN_BRACE] + Join(Fields(Sort(StableEntries(es)))) + [CLOSE_BRACE]
    case _ => ScalarText(v)
  }

  function StableItems(vs: seq<Json>): (r: seq<Str>)
    ensures |r| == |vs|
  {
    if vs == [] then [] else [StableStringify(vs[0])] + StableItems(vs[1..])
  }

  function StableEntries(es: seq<Entry<Json>>): (r: seq<Entry<Str>>)
    ensures |r| == |es|
  {
    if es == [] then [] else [Entry(es[0].key, StableStringify(es[0].value))] + StableEntries(es[1..])
  }

  // ---------- parsing ----------

  datatype Parsed<+T> = Parsed(value: T, rest: Str)

  function UnhexDigit(c: CodeUnit): Option<int> {
    if IsDigit(c) then Some(c - 48) else if 97 <= c <= 102 then Some(c - 87) else None
  }

  function Unhex4(t: Str): (r: Option<CodeUnit>)
    requires |t| == 4
  {
    var a, b, c, d := UnhexDigit(t[0]), UnhexDigit(t[1]), UnhexDigit(t[2]), UnhexDigit(t[3]);
    if a.Some? && b.Some? && c.Some? && d.Some?
       && 0 <= a.value < 16 && 0 <= b.value < 16 && 0 <= c.value < 16 && 0 <= d.value < 16
    then Some(a.value * 4096 + b.value * 256 + c.value * 16 + d.value)
    else None
  }

  function UnescapeUnit(c: CodeUnit): Option<CodeUnit> {
    if c == 98 then Some(8)
    else if c == 116 then Some(9)
    else if c == 110 then Some(10)
    else if c == 102 then Some(12)
    else if c == 114 then Some(13)
    else if c == QUOTE || c == BACKSLASH then Some(c)
    else None
  }

  /** Reads a string body up to and including its closing quote. */
  function Unquote(t: Str): (r: Option<Parsed<Str>>)
    ensures r.Some? ==> |r.value.rest| < |t|
  {
    if t == [] then None
    else if t[0] == QUOTE then Some(Parsed([], t[1..]))
    else if t[0] != BACKSLASH then Prepend(t[0], Unquote(t[1..]))
    else if |t| >= 6 && t[1] == 117 then
      var u := Unhex4(t[2..6]);
      if u.Some? then Prepend(u.value, Unquote(t[6..])) else None
    else if |t| >= 2 && UnescapeUnit(t[1]).Some? then Prepend(UnescapeUnit(t[1]).value, Unquote(t[2..]))
    else None
  }

  function Prepend(c: CodeUnit, r: Option<Parsed<Str>>): Option<Parsed<Str>> {
    if r.Some? then Some(Parsed([c] + r.value.value, r.value.rest)) else None
  }

  /** The length of the longest prefix made of number characters. */
  function NumberRun(t: Str): (n: nat)
    ensures n <= |t|
  {
    if t != [] && IsNumberUnit(t[0]) then 1 + NumberRun(t[1..]) else 0
  }

  function ParseLiteral(t: Str, word: Str, v: Json): (r: Option<Parsed<Json>>)
    ensures r.Some? ==> |r.value.rest| == |t| - |word|
  {
    if |word| <= |t| && t[..|word|] == word then Some(Parsed(v, t[|word|..])) else None
  }

  /** null, true, false and numbers. */
  function ParseWord(t: Str): (r: Option<Parsed<Json>>)
    requires t != []
    ensures r.Some? ==> |r.value.rest| < |t|
  {
    if t[0] == NULL_TEXT[0] then ParseLiteral(t, NULL_TEXT, Null)
    else if t[0] == TRUE_TEXT[0] then ParseLiteral(t, TRUE_TEXT, Bool(true))
    else if t[0] == FALSE_TEXT[0] then ParseLiteral(t, FALSE_TEXT, Bool(false))
    else
      var n := NumberRun(t);
      if IsNumberText(t[..n]) then Some(Parsed(Num(t[..n]), t[n..])) else None
  }

  /** JSON.parse on compact text: one value, and what follows it. */
  function ParseValue(t: Str): (r: Option<Parsed<Json>>)
    ensures r.Some? ==> |r.value.rest| < |t|
    decreases |t|, 0
  {
    if t == [] then None
    else if t[0] == QUOTE then
      var s := Unquote(t[1..]);
      if s.Some? then Some(Parsed(Text(s.value.value), s.value.rest)) else None
    else if t[0] == OPEN_BRACKET then
      if |t| >= 2 && t[1] == CLOSE_BRACKET then Some(Parsed(Arr([]), t[2..]))
      else
        var vs := ParseItems(t[1..]);
        if vs.Some? then Some(Parsed(Arr(vs.value.value), vs.value.rest)) else None
    else if t[0] == OPEN_BRACE then
      if |t| >= 2 && t[1] == CLOSE_BRACE then Some(Parsed(Obj([]), t[2..]))
      else
        var es := ParseEntries(t[1..]);
        if es.Some? then Some(Parsed(Obj(es.value.value), es.value.rest)) else None
    else ParseWord(t)
  }

  function ParseItems(t: Str): (r: Option<Parsed<seq<Json>>>)
    ensures r.Some? ==> |r.value.rest| < |t|
    decreases |t|, 1
  {
    var v := ParseValue(t);
    if v.None? || v.value.rest == [] then None
    else if v.value.rest[0] == CLOSE_BRACKET then Some(Parsed([v.value.value], v.value.rest[1..]))
    else if v.value.rest[0] != COMMA then None
    else
      var vs := ParseItems(v.value.rest[1..]);
      if vs.Some? then Some(Parsed([v.value.value] + vs.value.value, vs.value.rest)) else None
  }

  function ParseEntries(t: Str): (r: Option<Parsed<seq<Entry<Json>>>>)
    ensures r.Some? ==> |r.value.rest| < |t|
    decreases |t|, 1
  {
    if t == [] || t[0] != QUOTE then None else
    var k := Unquote(t[1..]);
    if k.None? || k.value.rest == [] || k.value.rest[0] != COLON then None else
    var v := ParseValue(k.value.rest[1..]);
    if v.None? || v.value.rest == [] then None
    else
      var e := Entry(k.value.value, v.value.value);
      if v.value.rest[0] == CLOSE_BRACE then Some(Parsed([e], v.value.rest[1..]))
      else if v.value.rest[0] != COMMA then None
      else
        var es := ParseEntries(v.value.rest[1..]);
        if es.Some? then Some(Parsed([e] + es.value.value, es.value.rest)) else None
  }

  function Parse(t: Str): Option<Json> {
    var v := ParseValue(t);
    if v.Some? && v.value.rest == [] then Some(v.value.value) else None
  }
}
