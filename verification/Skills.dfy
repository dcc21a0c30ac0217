/** The skills loader's frontmatter parser: a line-driven state machine, and the format it reads back. */
module Skills {
  import opened Text
  import opened Json

  datatype Value = Single(text: Str) | Many(items: seq<Str>)

  datatype Frontmatter = Frontmatter(data: map<Str, Value>, body: Str)

  // ---------- text ----------

  /** Every CRLF becomes an LF. */
  function Normalize(t: Str): Str {
    if |t| < 2 then t
    else if t[0] == RETURN && t[1] == NEWLINE then [NEWLINE] + Normalize(t[2..])
    else [t[0]] + Normalize(t[1..])
  }

  function Split(t: Str, sep: CodeUnit): (r: seq<Str>)
    ensures r != []
  {
    if t == [] then [[]]
    else if t[0] == sep then [[]] + Split(t[1..], sep)
    else
      var r := Split(t[1..], sep);
      [[t[0]] + r[0]] + r[1..]
  }

  const OPENING: Str := [DASH, DASH, DASH, NEWLINE]
  const CLOSING: Str := [NEWLINE, DASH, DASH, DASH]

  /** startsWith('---'). */
  predicate Fenced(t: Str) { |t| >= 3 && t[0] == DASH && t[1] == DASH && t[2] == DASH }

  /** startsWith('---\n'). */
  predicate Opens(t: Str) { |t| >= 4 && Fenced(t) && t[3] == NEWLINE }

  /** startsWith('\n---'). */
  predicate Closes(t: Str) { |t| >= 4 && t[0] == NEWLINE && t[1] == DASH && t[2] == DASH && t[3] == DASH }

  /** indexOf('\n---'). */
  function FindClosing(t: Str): (r: Option<nat>)
    ensures r.Some? ==> r.value + 4 <= |t|
  {
    if Closes(t) then Some(0)
    else if t == [] then None
    else
      var r := FindClosing(t[1..]);
      if r.None? then None else Some(r.value + 1)
  }

  /** It is the first place where that begins, and none when it begins nowhere. */
  lemma {:induction false} FindClosingIsFirst(t: Str)
    ensures var r := FindClosing(t);
      if r.Some? then Closes(t[r.value..]) && forall i :: 0 <= i < r.value ==> !Closes(t[i..])
      else forall i :: 0 <= i <= |t| ==> !Closes(t[i..])
  {
    if !Closes(t) && t != [] {
      FindClosingIsFirst(t[1..]);
      assert forall i :: 1 <= i <= |t| ==> t[1..][i - 1..] == t[i..];
    }
  }

  // ---------- one line ----------

  predicate IsKeyUnit(c: CodeUnit) { IsLetter(c) || IsDigit(c) || c == UNDERSCORE || c == DASH }

  function KeyRun(line: Str): (n: nat)
    ensures n <= |line|
    ensures forall i :: 0 <= i < n ==> IsKeyUnit(line[i])
    ensures n < |line| ==> !IsKeyUnit(line[n])
  {
    if line != [] && IsKeyUnit(line[0]) then 1 + KeyRun(line[1..]) else 0
  }

  predicate OneLine(t: Str) { forall i :: 0 <= i < |t| ==> !IsLineTerminator(t[i]) }

  datatype KeyValue = KeyValue(key: Str, value: Str)

  /** A key, blanks, a colon, blanks, and anything to the end of the line. */
  function MatchKeyValue(line: Str): Option<KeyValue> {
    var n := KeyRun(line);
    if n == 0 then None else AfterKey(line[..n], TrimStart(line[n..]))
  }

  function AfterKey(key: Str, after: Str): Option<KeyValue> {
    if after == [] || after[0] != COLON then None else AfterColon(key, after[1..])
  }

  function AfterColon(key: Str, tail: Str): Option<KeyValue> {
    var rest := TrimStart(tail);
    if OneLine(rest) then Some(KeyValue(key, Trim(rest))) else None
  }

  /** Blanks, a dash, blanks, and something to the end of the line. */
  function MatchBullet(line: Str): Option<Str> {
    var after := TrimStart(line);
    if after == [] || after[0] != DASH then None else AfterDash(after[1..])
  }

  /** When only blanks follow the dash, the last of them is that something, and trims to nothing. */
  function AfterDash(tail: Str): Option<Str> {
    var rest := TrimStart(tail);
    var gap := |tail| - |rest|;
    if gap == 0 then None
    else if rest != [] then if OneLine(rest) then Some(Trim(rest)) else None
    else if gap >= 2 && !IsLineTerminator(tail[gap - 1]) then Some([])
    else None
  }

  predicate IsQuote(c: CodeUnit) { c == QUOTE || c == APOSTROPHE }

  /** One quote off each end. */
  function Unquoted(s: Str): Str {
    var t := if s != [] && IsQuote(s[0]) then s[1..] else s;
    if t != [] && IsQuote(t[|t| - 1]) then t[..|t| - 1] else t
  }

  function Cleaned(piece: Str): Str { Unquoted(Trim(piece)) }

  /** The pieces once cleaned, without those left empty. */
  function Items(clean: Str -> Str, pieces: seq<Str>): seq<Str>
    decreases |pieces|
  {
    if pieces == [] then []
    else
      var s := clean(pieces[0]);
      (if s == [] then [] else [s]) + Items(clean, pieces[1..])
  }

  /** parseInlineList. */
  function InlineList(value: Str): seq<Str> {
    var t := Trim(value);
    if |t| >= 2 && t[0] == OPEN_BRACKET && t[|t| - 1] == CLOSE_BRACKET
    then Items(Cleaned, Split(t[1..|t| - 1], COMMA)) else []
  }

  /** How lines and inline lists are read. */
  datatype Grammar = Grammar(keyValue: Str -> Option<KeyValue>, bullet: Str -> Option<Str>, inlineList: Str -> seq<Str>)

  const GRAMMAR := Grammar(MatchKeyValue, MatchBullet, InlineList)

  // ---------- the state machine ----------

  datatype Front = Front(data: map<Str, Value>, listKey: Option<Str>)

  const PROTO: Str := Of("__proto__")

  /** Assignment to a property of an object literal: this one name sets the prototype, and no property. */
  function Put(data: map<Str, Value>, key: Str, v: Value): map<Str, Value> {
    if key == PROTO then data else data[key := v]
  }

  function Push(data: map<Str, Value>, key: Str, item: Str): map<Str, Value> {
    if key in data && data[key].Many? then data[key := Many(data[key].items + [item])] else data
  }

  function Step(g: Grammar, st: Front, line: Str): Front {
    var kv := g.keyValue(line);
    if kv.Some? then
      var value := kv.value.value;
      if value == [] then Front(Put(st.data, kv.value.key, Many([])), Some(kv.value.key))
      else if value[0] == OPEN_BRACKET then Front(Put(st.data, kv.value.key, Many(g.inlineList(value))), None)
      else Front(Put(st.data, kv.value.key, Single(value)), None)
    else
      var bullet := g.bullet(line);
      if bullet.Some? && st.listKey.Some? then st.(data := Push(st.data, st.listKey.value, bullet.value)) else st
  }

  function Steps(g: Grammar, st: Front, lines: seq<Str>): Front
    decreases |lines|
  {
    if lines == [] then st else Steps(g, Step(g, st, lines[0]), lines[1..])
  }

  const START := Front(map[], None)

  /** The text between the fences, and what follows. */
  datatype Sections = Sections(front: Str, after: Str)

  function Cut(rest: Str, end: nat): Sections
    requires end + 4 <= |rest|
  {
    Sections(rest[..end], rest[end + 4..])
  }

  function SectionsOf(text: Str): Option<Sections> {
    if !Opens(text) then None
    else
      var end := FindClosing(text[4..]);
      if end.None? then None else Some(Cut(text[4..], end.value))
  }

  function ParseText(g: Grammar, text: Str): Frontmatter {
    match SectionsOf(text)
    case None => Frontmatter(map[], Trim(text))
    case Some(s) => Frontmatter(Steps(g, START, Split(s.front, NEWLINE)).data, Trim(s.after))
  }

  function Parse(raw: Str): Frontmatter { ParseText(GRAMMAR, Normalize(raw)) }

  method ParseSkillMarkdown(raw: Str) returns (parsed: Frontmatter)
    ensures parsed == Parse(raw)
  {
    parsed := ReadText(GRAMMAR, Normalize(raw));
  }

  method ReadText(g: Grammar, text: Str) returns (parsed: Frontmatter)
    ensures parsed == ParseText(g, text)
  {
    var sections := FindSections(text);
    if sections.None? {
      return Frontmatter(map[], Trim(text));
    }
    var data := ReadLines(g, Split(sections.value.front, NEWLINE));
    parsed := Frontmatter(data, Trim(sections.value.after));
  }

  method FindSections(text: Str) returns (r: Option<Sections>)
    ensures r == SectionsOf(text)
  {
    if !Opens(text) {
      return None;
    }
    var end := FindClosing(text[4..]);
    if end.None? {
      return None;
    }
    r := Some(Cut(text[4..], end.value));
  }

  /** The loop over the lines of the frontmatter. */
  method ReadLines(g: Grammar, lines: seq<Str>) returns (data: map<Str, Value>)
    ensures data == Steps(g, START, lines).data
  {
    data := map[];
    var listKey: Option<Str> := None;
    for i := 0 to |lines|
      invariant Steps(g, Front(data, listKey), lines[i..]) == Steps(g, START, lines)
    {
      var line := lines[i];
      assert lines[i..][1..] == lines[i + 1..];
      var kv := g.keyValue(line);
      if kv.Some? {
        var key, value := kv.value.key, kv.value.value;
        if value == [] {
          listKey := Some(key);
          data := Put(data, key, Many([]));
        } else if value[0] == OPEN_BRACKET {
          data := Put(data, key, Many(g.inlineList(value)));
          listKey := None;
        } else {
          data := Put(data, key, Single(value));
          listKey := None;
        }
      } else {
        var bullet := g.bullet(line);
        if bullet.Some? && listKey.Some? {
          data := Push(data, listKey.value, bullet.value);
        }
      }
    }
  }

  predicate FenceAt(text: Str, i: nat) { i + 4 <= |text| && text[i..i + 4] == CLOSING }

  /** Text that does not open, or is not closed, is all body. */
  lemma UnfencedIsBody(raw: Str)
    requires var text := Normalize(raw);
      !(|text| >= 4 && text[..4] == OPENING) || forall i: nat :: i >= 4 ==> !FenceAt(text, i)
    ensures Parse(raw) == Frontmatter(map[], Trim(Normalize(raw)))
  {
    var text := Normalize(raw);
    if Opens(text) {
      assert text[..4] == OPENING;
      ClosingIsThere(text);
    }
  }

  lemma ClosingIsThere(text: Str)
    requires |text| >= 4
    ensures var r := FindClosing(text[4..]); r.Some? ==> FenceAt(text, 4 + r.value)
  {
    var r := FindClosing(text[4..]);
    FindClosingIsFirst(text[4..]);
    if r.Some? {
      assert text[4..][r.value..] == text[4 + r.value..];
    }
  }

  // ---------- CRLF ----------

  /** Every LF written as CRLF. */
  function ToCrLf(t: Str): Str {
    if t == [] then [] else (if t[0] == NEWLINE then [RETURN, NEWLINE] else [t[0]]) + ToCrLf(t[1..])
  }

  predicate HasCrLf(t: Str) { exists i :: 0 <= i < |t| - 1 && t[i] == RETURN && t[i + 1] == NEWLINE }

  lemma {:induction false} NormalizeLf(t: Str)
    requires !HasCrLf(t)
    ensures Normalize(t) == t
  {
    if |t| >= 2 {
      TailHasNoCrLf(t);
      NormalizeLf(t[1..]);
      assert t[0] == RETURN ==> t[0 + 1] != NEWLINE;
    }
  }

  lemma {:induction false} TailHasNoCrLf(t: Str)
    requires t != [] && !HasCrLf(t)
    ensures !HasCrLf(t[1..])
  {
  }

  lemma {:induction false} NormalizeCrLf(t: Str)
    requires !HasCrLf(t)
    ensures Normalize(ToCrLf(t)) == t
  {
    if t != [] {
      TailHasNoCrLf(t);
      NormalizeCrLf(t[1..]);
      var u := ToCrLf(t[1..]);
      if t[0] == NEWLINE {
        assert ToCrLf(t)[2..] == u;
      } else {
        assert ToCrLf(t)[1..] == u;
        if |t| >= 2 {
          assert t[0] == RETURN ==> t[0 + 1] != NEWLINE;
        }
      }
    }
  }

  /** CRLF input parses as its LF form. */
  lemma CrLfParsesAlike(t: Str)
    requires !HasCrLf(t)
    ensures Parse(ToCrLf(t)) == Parse(t)
  {
    NormalizeLf(t);
    NormalizeCrLf(t);
  }

  // ---------- the documented format ----------

  /** `key: text`, `key: [a, b]`, or `key:` and one bullet per item. */
  datatype Content = AsText(text: Str) | AsInline(items: seq<Str>) | AsBullets(items: seq<Str>)

  datatype Setting = Setting(key: Str, content: Content)

  function ValueOf(c: Content): Value {
    match c
    case AsText(text) => Single(text)
    case AsInline(items) => Many(items)
    case AsBullets(items) => Many(items)
  }

  predicate Trimmed(s: Str) { s == [] || (!IsSpace(s[0]) && !IsSpace(s[|s| - 1])) }

  predicate WellFormedText(s: Str) { s != [] && Trimmed(s) && OneLine(s) }

  /** An item of an inline list: no comma, no quote at either end. */
  predicate WellFormedItem(s: Str) {
    WellFormedText(s) && COMMA !in s && !IsQuote(s[0]) && !IsQuote(s[|s| - 1])
  }

  predicate WellFormedContent(c: Content) {
    match c
    case AsText(text) => WellFormedText(text) && text[0] != OPEN_BRACKET
    case AsInline(items) => forall i :: 0 <= i < |items| ==> WellFormedItem(items[i])
    case AsBullets(items) => forall i :: 0 <= i < |items| ==> WellFormedText(items[i])
  }

  predicate WellFormedKey(k: Str) { k != [] && forall i :: 0 <= i < |k| ==> IsKeyUnit(k[i]) }

  /** Any settings in the format. */
  predicate WellFormedSettings(ss: seq<Setting>) {
    ss != [] && forall i :: 0 <= i < |ss| ==> WellFormedKey(ss[i].key) && WellFormedContent(ss[i].content)
  }

  /** Only the first key may begin like a fence. */
  predicate NoLaterFence(ss: seq<Setting>) { forall i :: 1 <= i < |ss| ==> !Fenced(ss[i].key) }

  predicate NoProto(ss: seq<Setting>) { forall i :: 0 <= i < |ss| ==> ss[i].key != PROTO }

  function Commas(items: seq<Str>): Str {
    if items == [] then [] else if |items| == 1 then items[0] else items[0] + [COMMA, SPACE] + Commas(items[1..])
  }

  function Bullets(items: seq<Str>): seq<Str> {
    if items == [] then [] else [BulletLine(items[0])] + Bullets(items[1..])
  }

  function SettingLines(s: Setting): seq<Str> {
    match s.content
    case AsText(text) => [s.key + [COLON, SPACE] + text]
    case AsInline(items) => [s.key + [COLON, SPACE] + Bracketed(items)]
    case AsBullets(items) => [s.key + [COLON]] + Bullets(items)
  }

  function Lines(ss: seq<Setting>): seq<Str> {
    if ss == [] then [] else SettingLines(ss[0]) + Lines(ss[1..])
  }

  function JoinLines(lines: seq<Str>): Str
    requires lines != []
  {
    if |lines| == 1 then lines[0] else lines[0] + [NEWLINE] + JoinLines(lines[1..])
  }

  function Render(ss: seq<Setting>, body: Str): Str
    requires Lines(ss) != []
  {
    OPENING + JoinLines(Lines(ss)) + CLOSING + [NEWLINE] + body
  }

  function DataOf(data: map<Str, Value>, ss: seq<Setting>): map<Str, Value>
    decreases |ss|
  {
    if ss == [] then data else DataOf(data[ss[0].key := ValueOf(ss[0].content)], ss[1..])
  }

  // ---------- trimming ----------

  lemma {:induction false} TrimKeeps(s: Str)
    requires Trimmed(s)
    ensures TrimStart(s) == s && TrimEnd(s) == s && Trim(s) == s
  {
  }

  lemma TrimDropsFirst(c: CodeUnit, s: Str)
    requires IsSpace(c) && Trimmed(s)
    ensures TrimStart([c] + s) == s && Trim([c] + s) == s
  {
    assert ([c] + s)[1..] == s;
    TrimKeeps(s);
  }

  // ---------- lines of the format ----------

  /** A key and a colon are always read back, and what follows is the value. */
  lemma {:induction false} KeyIsRead(key: Str, rest: Str)
    requires WellFormedKey(key)
    ensures KeyRun(key + [COLON] + rest) == |key|
  {
    var line := key + [COLON] + rest;
    assert line[|key|] == COLON;
    assert forall i :: 0 <= i < |key| ==> line[i] == key[i];
  }

  lemma KeyLineSplits(key: Str, rest: Str)
    requires WellFormedKey(key)
    ensures MatchKeyValue(key + [COLON] + rest) == AfterKey(key, [COLON] + rest)
  {
    var line := key + [COLON] + rest;
    KeyIsRead(key, rest);
    assert line[..|key|] == key;
    assert line[|key|..] == [COLON] + rest;
    TrimStartStops(COLON, rest);
  }

  lemma ColonIsRead(key: Str, tail: Str)
    ensures AfterKey(key, [COLON] + tail) == AfterColon(key, tail)
  {
    assert ([COLON] + tail)[1..] == tail;
  }

  lemma KeyLineIsRead(key: Str, tail: Str)
    requires WellFormedKey(key)
    ensures MatchKeyValue(key + [COLON] + tail) == AfterColon(key, tail)
  {
    KeyLineSplits(key, tail);
    ColonIsRead(key, tail);
  }

  lemma ValueIsRead(key: Str, value: Str)
    requires WellFormedText(value)
    ensures AfterColon(key, [SPACE] + value) == Some(KeyValue(key, value))
  {
    TrimDropsFirst(SPACE, value);
    TrimKeeps(value);
  }

  lemma KeyLineMatches(key: Str, value: Str)
    requires WellFormedKey(key) && WellFormedText(value)
    ensures MatchKeyValue(key + [COLON, SPACE] + value) == Some(KeyValue(key, value))
  {
    var tail := [SPACE] + value;
    assert key + [COLON, SPACE] + value == key + [COLON] + tail;
    KeyLineIsRead(key, tail);
    ValueIsRead(key, value);
  }

  lemma BareKeyMatches(key: Str)
    requires WellFormedKey(key)
    ensures MatchKeyValue(key + [COLON]) == Some(KeyValue(key, []))
  {
    assert key + [COLON] == key + [COLON] + [];
    KeyLineIsRead(key, []);
    NothingIsRead(key);
  }

  lemma NothingIsRead(key: Str)
    ensures AfterColon(key, []) == Some(KeyValue(key, []))
  {
  }

  // ---------- blanks in lines ----------

  predicate Blanks(b: Str) { forall i :: 0 <= i < |b| ==> IsSpace(b[i]) }

  lemma {:induction false} TrimStartDrops(b: Str, s: Str)
    requires Blanks(b) && s != [] && !IsSpace(s[0])
    ensures TrimStart(b + s) == s
  {
    if b == [] {
      assert b + s == s;
    } else {
      TrimStartDrops(b[1..], s);
      assert (b + s)[1..] == b[1..] + s;
    }
  }

  lemma {:induction false} TrimEndDrops(s: Str, b: Str)
    requires Blanks(b) && s != [] && !IsSpace(s[|s| - 1])
    ensures TrimEnd(s + b) == s
  {
    if b == [] {
      assert s + b == s;
    } else {
      TrimEndDrops(s, b[..|b| - 1]);
      assert (s + b)[..|s + b| - 1] == s + b[..|b| - 1];
    }
  }

  lemma {:induction false} KeyRunStops(key: Str, rest: Str)
    requires WellFormedKey(key) && rest != [] && !IsKeyUnit(rest[0])
    ensures KeyRun(key + rest) == |key|
  {
    var line := key + rest;
    assert line[|key|] == rest[0];
    assert forall i :: 0 <= i < |key| ==> line[i] == key[i];
  }

  lemma OneLineBoth(a: Str, b: Str)
    requires OneLine(a) && OneLine(b)
    ensures OneLine(a + b)
  {
  }

  lemma BlanksComeOff(before: Str, value: Str, after: Str)
    requires WellFormedText(value) && Blanks(before) && Blanks(after)
    ensures TrimStart(before + (value + after)) == value + after && Trim(value + after) == value
  {
    TrimStartDrops(before, value + after);
    TrimEndDrops(value, after);
  }

  lemma ValueBetweenBlanks(key: Str, before: Str, value: Str, after: Str)
    requires WellFormedText(value) && Blanks(before) && Blanks(after) && OneLine(after)
    ensures AfterColon(key, before + (value + after)) == Some(KeyValue(key, value))
  {
    BlanksComeOff(before, value, after);
    OneLineBoth(value, after);
  }

  /** Blanks before and after the colon, and after the value, do not matter. */
  lemma KeyLineWithBlanks(key: Str, a: Str, b: Str, value: Str, c: Str)
    requires WellFormedKey(key) && WellFormedText(value) && Blanks(a) && Blanks(b) && Blanks(c) && OneLine(c)
    ensures MatchKeyValue(key + (a + ([COLON] + (b + (value + c))))) == Some(KeyValue(key, value))
  {
    var tail := b + (value + c);
    var rest := a + ([COLON] + tail);
    KeyRunStops(key, rest);
    assert (key + rest)[..|key|] == key && (key + rest)[|key|..] == rest;
    TrimStartDrops(a, [COLON] + tail);
    ColonIsRead(key, tail);
    ValueBetweenBlanks(key, b, value, c);
  }

  lemma TrimStartSkips(c: CodeUnit, s: Str)
    requires IsSpace(c)
    ensures TrimStart([c] + s) == TrimStart(s)
  {
    assert ([c] + s)[1..] == s;
  }

  lemma TrimStartStops(c: CodeUnit, s: Str)
    requires !IsSpace(c)
    ensures TrimStart([c] + s) == [c] + s
  {
  }

  lemma BulletIsNoKey(item: Str)
    ensures MatchKeyValue(BulletLine(item)) == None
  {
    var line := BulletLine(item);
    assert line[0] == SPACE;
    assert KeyRun(line) == 0;
  }

  lemma BulletLineMatches(item: Str)
    requires WellFormedText(item)
    ensures MatchBullet(BulletLine(item)) == Some(item)
  {
    var tail := [SPACE] + item;
    BulletTrims(item);
    ItemAfterDash(item);
    assert ([DASH] + tail)[1..] == tail;
  }

  lemma BulletTrims(item: Str)
    ensures TrimStart(BulletLine(item)) == [DASH] + ([SPACE] + item)
  {
    var tail := [SPACE] + item;
    TrimStartSkips(SPACE, [SPACE] + ([DASH] + tail));
    TrimStartSkips(SPACE, [DASH] + tail);
    TrimStartStops(DASH, tail);
  }

  lemma ItemAfterDash(item: Str)
    requires WellFormedText(item)
    ensures AfterDash([SPACE] + item) == Some(item)
  {
    TrimDropsFirst(SPACE, item);
    TrimKeeps(item);
  }

  // ---------- inline lists ----------

  lemma {:induction false} SplitOne(t: Str, sep: CodeUnit)
    requires sep !in t
    ensures Split(t, sep) == [t]
  {
    if t != [] {
      SplitOne(t[1..], sep);
      assert [t[0]] + t[1..] == t;
    }
  }

  lemma {:induction false} SplitFirst(t: Str, sep: CodeUnit, rest: Str)
    requires sep !in t
    ensures Split(t + [sep] + rest, sep) == [t] + Split(rest, sep)
  {
    var all := t + [sep] + rest;
    if t == [] {
      assert all[1..] == rest;
    } else {
      assert all[1..] == t[1..] + [sep] + rest;
      SplitFirst(t[1..], sep, rest);
      assert [t[0]] + t[1..] == t;
    }
  }

  lemma ItemIsRead(item: Str)
    requires WellFormedItem(item)
    ensures ReadsAs(Cleaned, item, item)
  {
    TrimKeeps(item);
    TrimDropsFirst(SPACE, item);
  }

  /** Cleaning makes the item of the piece, whether or not a blank precedes it. */
  predicate ReadsAs(clean: Str -> Str, piece: Str, item: Str) {
    item != [] && COMMA !in piece && clean(piece) == item && clean([SPACE] + piece) == item
  }

  lemma {:induction false} CommasSplit(clean: Str -> Str, pieces: seq<Str>, items: seq<Str>, lead: Str)
    requires pieces != [] && |pieces| == |items| && (lead == [] || lead == [SPACE])
    requires forall i :: 0 <= i < |items| ==> ReadsAs(clean, pieces[i], items[i])
    ensures Items(clean, Split(lead + Commas(pieces), COMMA)) == items
    decreases |pieces|
  {
    var first := lead + pieces[0];
    assert ReadsAs(clean, pieces[0], items[0]);
    assert lead == [] ==> first == pieces[0];
    if |pieces| == 1 {
      SplitOne(first, COMMA);
      ItemsFirst(clean, first, []);
      assert [first] == [first] + [];
    } else {
      assert lead + Commas(pieces) == first + [COMMA] + ([SPACE] + Commas(pieces[1..]));
      SplitFirst(first, COMMA, [SPACE] + Commas(pieces[1..]));
      CommasSplit(clean, pieces[1..], items[1..], [SPACE]);
      ItemsFirst(clean, first, Split([SPACE] + Commas(pieces[1..]), COMMA));
    }
  }

  lemma ItemsFirst(clean: Str -> Str, first: Str, pieces: seq<Str>)
    requires clean(first) != []
    ensures Items(clean, [first] + pieces) == [clean(first)] + Items(clean, pieces)
  {
    assert ([first] + pieces)[1..] == pieces;
  }

  lemma {:induction false} CommasAreOneLine(items: seq<Str>)
    requires forall i :: 0 <= i < |items| ==> WellFormedItem(items[i])
    ensures OneLine(Commas(items))
  {
    if items != [] {
      assert WellFormedItem(items[0]);
      CommasAreOneLine(items[1..]);
    }
  }

  function Bracketed(items: seq<Str>): Str { [OPEN_BRACKET] + Commas(items) + [CLOSE_BRACKET] }

  lemma BracketedIsText(items: seq<Str>)
    requires forall i :: 0 <= i < |items| ==> WellFormedItem(items[i])
    ensures WellFormedText(Bracketed(items))
  {
    CommasAreOneLine(items);
  }

  lemma {:induction false} ItemsAreRead(items: seq<Str>)
    requires forall i :: 0 <= i < |items| ==> WellFormedItem(items[i])
    ensures Items(Cleaned, Split(Commas(items), COMMA)) == items
  {
    if items == [] {
      assert Items(Cleaned, [[]]) == Items(Cleaned, []);
    } else {
      forall i | 0 <= i < |items| ensures ReadsAs(Cleaned, items[i], items[i]) {
        ItemIsRead(items[i]);
      }
      CommasSplit(Cleaned, items, items, []);
      assert [] + Commas(items) == Commas(items);
    }
  }

  lemma BracketsStrip(inner: Str)
    ensures InlineList([OPEN_BRACKET] + inner + [CLOSE_BRACKET]) == Items(Cleaned, Split(inner, COMMA))
  {
    var value := [OPEN_BRACKET] + inner + [CLOSE_BRACKET];
    TrimKeeps(value);
    assert value[1..|value| - 1] == inner;
  }

  lemma InlineIsRead(items: seq<Str>)
    requires forall i :: 0 <= i < |items| ==> WellFormedItem(items[i])
    ensures InlineList(Bracketed(items)) == items
  {
    BracketsStrip(Commas(items));
    ItemsAreRead(items);
  }

  /** Each item between quotes of one kind, with whatever blanks and other quotes it has itself. */
  function InQuotes(q: CodeUnit, items: seq<Str>): (r: seq<Str>)
    ensures |r| == |items| && forall i :: 0 <= i < |items| ==> r[i] == [q] + items[i] + [q]
  {
    seq(|items|, i requires 0 <= i < |items| => [q] + items[i] + [q])
  }

  lemma QuotesComeOff(q: CodeUnit, item: Str)
    requires IsQuote(q)
    ensures Unquoted([q] + item + [q]) == item
  {
    var piece := [q] + item + [q];
    assert piece[1..] == item + [q] && (item + [q])[..|item|] == item;
  }

  lemma QuotedItemIsRead(q: CodeUnit, item: Str)
    requires IsQuote(q) && item != [] && COMMA !in item
    ensures ReadsAs(Cleaned, [q] + item + [q], item)
  {
    var piece := [q] + item + [q];
    TrimKeeps(piece);
    TrimDropsFirst(SPACE, piece);
    QuotesComeOff(q, item);
  }

  lemma QuotedItemsAreRead(q: CodeUnit, items: seq<Str>)
    requires IsQuote(q) && items != [] && forall i :: 0 <= i < |items| ==> items[i] != [] && COMMA !in items[i]
    ensures Items(Cleaned, Split(Commas(InQuotes(q, items)), COMMA)) == items
  {
    var pieces := InQuotes(q, items);
    forall i | 0 <= i < |items| ensures ReadsAs(Cleaned, pieces[i], items[i]) {
      QuotedItemIsRead(q, items[i]);
    }
    CommasSplit(Cleaned, pieces, items, []);
    assert [] + Commas(pieces) == Commas(pieces);
  }

  /** A list of quoted items reads back the items: one quote comes off each end, and no more. */
  lemma QuotedListIsRead(q: CodeUnit, items: seq<Str>)
    requires IsQuote(q) && items != [] && forall i :: 0 <= i < |items| ==> items[i] != [] && COMMA !in items[i]
    ensures InlineList(Bracketed(InQuotes(q, items))) == items
  {
    QuotedItemsAreRead(q, items);
    BracketsStrip(Commas(InQuotes(q, items)));
  }

  // ---------- the machine reads the settings ----------

  lemma {:induction false} StepsThen(g: Grammar, st: Front, a: seq<Str>, b: seq<Str>)
    ensures Steps(g, st, a + b) == Steps(g, Steps(g, st, a), b)
    decreases |a|
  {
    if a == [] {
      assert a + b == b;
    } else {
      StepsThen(g, Step(g, st, a[0]), a[1..], b);
      assert (a + b)[1..] == a[1..] + b;
    }
  }

  /** Two blanks, a dash, a blank, the item. */
  function BulletLine(item: Str): Str { [SPACE] + ([SPACE] + ([DASH] + ([SPACE] + item))) }

  predicate ReadsBullet(g: Grammar, item: Str) {
    g.keyValue(BulletLine(item)) == None && g.bullet(BulletLine(item)) == Some(item)
  }

  lemma {:induction false} BulletsPush(g: Grammar, st: Front, key: Str, before: seq<Str>, items: seq<Str>)
    requires st.listKey == Some(key) && key in st.data && st.data[key] == Many(before)
    requires forall i :: 0 <= i < |items| ==> ReadsBullet(g, items[i])
    ensures Steps(g, st, Bullets(items)).data == st.data[key := Many(before + items)]
    decreases |items|
  {
    if items == [] {
      assert before + items == before;
    } else {
      assert ReadsBullet(g, items[0]);
      var next := Step(g, st, BulletLine(items[0]));
      BulletsPush(g, next, key, before + [items[0]], items[1..]);
      assert before + [items[0]] + items[1..] == before + items;
      assert Bullets(items)[1..] == Bullets(items[1..]);
    }
  }

  /** The grammar reads the lines of a setting as they are meant. */
  ghost predicate Understands(g: Grammar, s: Setting) {
    match s.content
    case AsText(text) =>
      text != [] && text[0] != OPEN_BRACKET && g.keyValue(s.key + [COLON, SPACE] + text) == Some(KeyValue(s.key, text))
    case AsInline(items) =>
      && g.keyValue(s.key + [COLON, SPACE] + Bracketed(items)) == Some(KeyValue(s.key, Bracketed(items)))
      && g.inlineList(Bracketed(items)) == items
    case AsBullets(items) =>
      && g.keyValue(s.key + [COLON]) == Some(KeyValue(s.key, []))
      && forall i :: 0 <= i < |items| ==> ReadsBullet(g, items[i])
  }

  lemma GrammarUnderstands(s: Setting)
    requires WellFormedKey(s.key) && WellFormedContent(s.content)
    ensures Understands(GRAMMAR, s)
  {
    match s.content
    case AsText(text) => KeyLineMatches(s.key, text);
    case AsInline(items) =>
      BracketedIsText(items);
      KeyLineMatches(s.key, Bracketed(items));
      InlineIsRead(items);
    case AsBullets(items) =>
      BareKeyMatches(s.key);
      forall i | 0 <= i < |items| ensures ReadsBullet(GRAMMAR, items[i]) {
        BulletIsNoKey(items[i]);
        BulletLineMatches(items[i]);
      }
  }

  lemma SettingIsRead(g: Grammar, st: Front, s: Setting)
    requires s.key != PROTO && Understands(g, s)
    ensures Steps(g, st, SettingLines(s)).data == st.data[s.key := ValueOf(s.content)]
  {
    var lines := SettingLines(s);
    var next := Step(g, st, lines[0]);
    assert Steps(g, st, lines) == Steps(g, next, lines[1..]);
    match s.content
    case AsText(text) => assert lines[1..] == [];
    case AsInline(items) => assert lines[1..] == [];
    case AsBullets(items) =>
      assert lines[1..] == Bullets(items);
      BulletsPush(g, next, s.key, [], items);
      assert [] + items == items;
  }

  lemma {:induction false} BulletsIgnored(g: Grammar, st: Front, items: seq<Str>)
    requires st.listKey == None && forall i :: 0 <= i < |items| ==> ReadsBullet(g, items[i])
    ensures Steps(g, st, Bullets(items)) == st
    decreases |items|
  {
    if items != [] {
      assert ReadsBullet(g, items[0]);
      BulletsIgnored(g, st, items[1..]);
      assert Bullets(items)[1..] == Bullets(items[1..]);
    }
  }

  /** Bullets belong to the key directly above them: after a text or an inline list they are ignored. */
  lemma StrayBulletsIgnored(g: Grammar, st: Front, s: Setting, items: seq<Str>)
    requires Understands(g, s) && !s.content.AsBullets? && forall i :: 0 <= i < |items| ==> ReadsBullet(g, items[i])
    ensures Steps(g, st, SettingLines(s) + Bullets(items)) == Steps(g, st, SettingLines(s))
    ensures Steps(g, st, SettingLines(s)).listKey == None
  {
    var lines := SettingLines(s);
    assert Steps(g, st, lines) == Steps(g, Step(g, st, lines[0]), lines[1..]) && lines[1..] == [];
    StepsThen(g, st, lines, Bullets(items));
    BulletsIgnored(g, Steps(g, st, lines), items);
  }

  lemma {:induction false} LinesAreRead(g: Grammar, st: Front, ss: seq<Setting>)
    requires forall i :: 0 <= i < |ss| ==> ss[i].key != PROTO && Understands(g, ss[i])
    ensures Steps(g, st, Lines(ss)).data == DataOf(st.data, ss)
    decreases |ss|
  {
    if ss != [] {
      var next := Steps(g, st, SettingLines(ss[0]));
      SettingIsRead(g, st, ss[0]);
      StepsThen(g, st, SettingLines(ss[0]), Lines(ss[1..]));
      LinesAreRead(g, next, ss[1..]);
    }
  }

  // ---------- the fences are found ----------

  /** A line of the format: not empty, one line. */
  predicate GoodLine(t: Str) { t != [] && NEWLINE !in t && RETURN !in t }

  predicate GoodLines(lines: seq<Str>) { forall i :: 0 <= i < |lines| ==> GoodLine(lines[i]) }

  predicate NoFenceIn(lines: seq<Str>) { forall i :: 0 <= i < |lines| ==> !Fenced(lines[i]) }

  lemma {:induction false} SplitLines(lines: seq<Str>)
    requires lines != [] && GoodLines(lines)
    ensures Split(JoinLines(lines), NEWLINE) == lines
  {
    if |lines| == 1 {
      SplitOne(lines[0], NEWLINE);
    } else {
      SplitFirst(lines[0], NEWLINE, JoinLines(lines[1..]));
      SplitLines(lines[1..]);
    }
  }

  /** Nothing closes the frontmatter inside a line. */
  lemma {:induction false} SkipLine(line: Str, tail: Str)
    requires NEWLINE !in line && FindClosing(tail).Some?
    ensures FindClosing(line + tail) == Some(|line| + FindClosing(tail).value)
  {
    if line == [] {
      assert line + tail == tail;
    } else {
      var all := line + tail;
      assert all[1..] == line[1..] + tail;
      SkipLine(line[1..], tail);
      assert all[0] == line[0];
      FindNext(all);
    }
  }

  /** Nor does the end of a line whose successor is not a fence. */
  lemma SkipNewline(next: Str, tail: Str)
    requires GoodLine(next) && !Fenced(next) && tail != [] && tail[0] == NEWLINE
    ensures !Closes([NEWLINE] + next + tail)
  {
    var all := [NEWLINE] + next + tail;
    assert all[1 + |next|] == NEWLINE;
    assert forall i :: 0 <= i < |next| ==> next[i] == all[1 + i];
  }

  lemma ClosingAfterNewline(after: Str)
    requires FindClosing(after).Some? && !Closes([NEWLINE] + after)
    ensures FindClosing([NEWLINE] + after) == Some(FindClosing(after).value + 1)
  {
    var all := [NEWLINE] + after;
    assert all[1..] == after;
    FindNext(all);
  }

  lemma FindNext(t: Str)
    requires t != [] && !Closes(t) && FindClosing(t[1..]).Some?
    ensures FindClosing(t) == Some(FindClosing(t[1..]).value + 1)
  {
  }

  lemma {:induction false} ClosingIsFound(lines: seq<Str>, tail: Str)
    requires lines != [] && GoodLines(lines) && NoFenceIn(lines[1..]) && Closes(tail)
    ensures FindClosing(JoinLines(lines) + tail) == Some(|JoinLines(lines)|)
  {
    if |lines| == 1 {
      SkipLine(lines[0], tail);
    } else {
      var rest := lines[1..];
      ClosingIsFound(rest, tail);
      var after := JoinLines(rest) + tail;
      NoFenceAfter(rest, tail);
      Assoc([NEWLINE], JoinLines(rest), tail);
      ClosingAfterNewline(after);
      SkipLine(lines[0], [NEWLINE] + after);
      Assoc(lines[0] + [NEWLINE], JoinLines(rest), tail);
      Assoc(lines[0], [NEWLINE], after);
    }
  }

  lemma NoFenceAfter(lines: seq<Str>, tail: Str)
    requires lines != [] && GoodLines(lines) && NoFenceIn(lines) && tail != [] && tail[0] == NEWLINE
    ensures !Closes([NEWLINE] + JoinLines(lines) + tail)
  {
    if |lines| == 1 {
      SkipNewline(lines[0], tail);
    } else {
      var more := [NEWLINE] + JoinLines(lines[1..]) + tail;
      SkipNewline(lines[0], more);
      assert [NEWLINE] + JoinLines(lines) + tail == [NEWLINE] + lines[0] + more;
    }
  }

  // ---------- every line of the format is good ----------

  lemma {:induction false} BulletsAreGood(items: seq<Str>)
    requires forall i :: 0 <= i < |items| ==> WellFormedText(items[i])
    ensures GoodLines(Bullets(items)) && NoFenceIn(Bullets(items))
  {
    if items != [] {
      BulletsAreGood(items[1..]);
      assert BulletLine(items[0])[0] == SPACE;
    }
  }

  lemma SettingLinesAreGood(s: Setting)
    requires WellFormedKey(s.key) && WellFormedContent(s.content)
    ensures GoodLines(SettingLines(s)) && NoFenceIn(SettingLines(s)[1..])
    ensures !Fenced(s.key) ==> NoFenceIn(SettingLines(s))
  {
    if s.content.AsInline? {
      CommasAreOneLine(s.content.items);
    }
    if s.content.AsBullets? {
      BulletsAreGood(s.content.items);
      assert SettingLines(s)[1..] == Bullets(s.content.items);
    }
    KeyGuardsFence(s);
  }

  /** A line that begins with a key is a fence only if the key begins like one. */
  lemma KeyGuardsFence(s: Setting)
    requires WellFormedKey(s.key)
    ensures Fenced(SettingLines(s)[0]) ==> Fenced(s.key)
  {
    var line := SettingLines(s)[0];
    assert line[|s.key|] == COLON;
    assert forall i :: 0 <= i < |s.key| ==> s.key[i] == line[i];
  }

  lemma {:induction false} GoodTogether(a: seq<Str>, b: seq<Str>)
    requires a != [] && GoodLines(a) && GoodLines(b)
    ensures GoodLines(a + b)
    ensures NoFenceIn(a[1..]) && NoFenceIn(b) ==> NoFenceIn((a + b)[1..])
    ensures NoFenceIn(a) && NoFenceIn(b) ==> NoFenceIn(a + b)
  {
    assert (a + b)[1..] == a[1..] + b;
  }

  lemma {:induction false} LinesAreGood(ss: seq<Setting>)
    requires ss != [] ==> WellFormedSettings(ss)
    ensures GoodLines(Lines(ss)) && (ss != [] ==> Lines(ss) != [])
    ensures ss != [] && NoLaterFence(ss) ==> NoFenceIn(Lines(ss)[1..])
    ensures NoLaterFence(ss) && (ss != [] ==> !Fenced(ss[0].key)) ==> NoFenceIn(Lines(ss))
    decreases |ss|
  {
    if ss != [] {
      var rest := ss[1..];
      LinesAreGood(rest);
      SettingLinesAreGood(ss[0]);
      GoodTogether(SettingLines(ss[0]), Lines(rest));
      if NoLaterFence(ss) && rest != [] {
        assert rest[0] == ss[1];
        assert NoLaterFence(rest) by {
          forall i | 1 <= i < |rest| ensures !Fenced(rest[i].key) {
            assert rest[i] == ss[i + 1];
          }
        }
      }
    }
  }

  // ---------- round trip ----------

  lemma {:induction false} JoinedHaveNoReturn(lines: seq<Str>)
    requires lines != [] && GoodLines(lines)
    ensures RETURN !in JoinLines(lines)
  {
    assert GoodLine(lines[0]);
    if |lines| > 1 {
      JoinedHaveNoReturn(lines[1..]);
    }
  }

  lemma {:induction false} NoReturnNoCrLf(a: Str, b: Str)
    requires RETURN !in a && !HasCrLf(b)
    ensures !HasCrLf(a + b)
  {
    var t := a + b;
    assert forall i :: 0 <= i < |a| ==> t[i] == a[i];
  }

  lemma RenderHasNoCrLf(ss: seq<Setting>, body: Str)
    requires Lines(ss) != [] && GoodLines(Lines(ss)) && !HasCrLf(body)
    ensures !HasCrLf(Render(ss, body))
  {
    JoinedHaveNoReturn(Lines(ss));
    NoReturnNoCrLf(OPENING + JoinLines(Lines(ss)) + CLOSING + [NEWLINE], body);
  }

  /** The sections of fenced text. */
  lemma {:induction false} FencedIsCut(front: Str, more: Str)
    requires FindClosing(front + (CLOSING + more)) == Some(|front|)
    ensures SectionsOf(OPENING + front + CLOSING + more) == Some(Sections(front, more))
  {
    var text, rest := OPENING + front + CLOSING + more, front + (CLOSING + more);
    assert text[4..] == rest;
    assert rest[..|front|] == front;
    assert rest[|front| + 4..] == more;
  }

  lemma {:induction false} RenderedIsRead(g: Grammar, ss: seq<Setting>, body: Str)
    requires Lines(ss) != [] && GoodLines(Lines(ss)) && NoFenceIn(Lines(ss)[1..]) && Trimmed(body)
    requires forall i :: 0 <= i < |ss| ==> ss[i].key != PROTO && Understands(g, ss[i])
    ensures ParseText(g, Render(ss, body)) == Frontmatter(DataOf(map[], ss), body)
  {
    var front, more := JoinLines(Lines(ss)), [NEWLINE] + body;
    ClosingIsFound(Lines(ss), CLOSING + more);
    FencedIsCut(front, more);
    assert Render(ss, body) == OPENING + front + CLOSING + more;
    SplitLines(Lines(ss));
    LinesAreRead(g, START, ss);
    TrimDropsFirst(NEWLINE, body);
  }

  /** Nothing ever assigns to the one name that is no property. */
  lemma {:induction false} ProtoStaysOut(g: Grammar, st: Front, lines: seq<Str>)
    requires PROTO !in st.data
    ensures PROTO !in Steps(g, st, lines).data
    decreases |lines|
  {
    if lines != [] {
      ProtoStaysOut(g, Step(g, st, lines[0]), lines[1..]);
    }
  }

  lemma {:induction false} DataHasKeys(data: map<Str, Value>, ss: seq<Setting>, key: Str)
    requires key in data || exists i :: 0 <= i < |ss| && ss[i].key == key
    ensures key in DataOf(data, ss)
    decreases |ss|
  {
    if ss != [] {
      var next := data[ss[0].key := ValueOf(ss[0].content)];
      if key !in next {
        var i :| 0 <= i < |ss| && ss[i].key == key;
        assert ss[1..][i - 1].key == key;
      }
      DataHasKeys(next, ss[1..], key);
    }
  }

  lemma ProtoIsLost(g: Grammar, ss: seq<Setting>, text: Str)
    requires !NoProto(ss)
    ensures ParseText(g, text).data != DataOf(map[], ss)
  {
    DataHasKeys(map[], ss, PROTO);
    var sections := SectionsOf(text);
    if sections.Some? {
      ProtoStaysOut(g, START, Split(sections.value.front, NEWLINE));
    }
  }

  lemma LinesFrom(s: Setting, ss: seq<Setting>)
    ensures Lines([s] + ss) == SettingLines(s) + Lines(ss)
  {
    assert ([s] + ss)[1..] == ss;
  }

  lemma LinesOfMore(s: Setting, a: seq<Setting>, b: seq<Setting>)
    requires Lines(a + b) == Lines(a) + Lines(b)
    ensures Lines([s] + a + b) == Lines([s] + a) + Lines(b)
  {
    LinesFrom(s, a);
    LinesFrom(s, a + b);
    Assoc([s], a, b);
    Assoc(SettingLines(s), Lines(a), Lines(b));
  }

  lemma {:induction false} LinesOfBoth(a: seq<Setting>, b: seq<Setting>)
    ensures Lines(a + b) == Lines(a) + Lines(b)
    decreases |a|
  {
    if a == [] {
      assert a + b == b;
    } else {
      LinesOfBoth(a[1..], b);
      LinesOfMore(a[0], a[1..], b);
      assert a == [a[0]] + a[1..];
    }
  }

  lemma {:induction false} JoinBoth(a: seq<Str>, b: seq<Str>)
    requires a != [] && b != []
    ensures JoinLines(a + b) == JoinLines(a) + [NEWLINE] + JoinLines(b)
    decreases |a|
  {
    assert (a + b)[1..] == a[1..] + b;
    if |a| == 1 {
      assert a[1..] + b == b;
    } else {
      JoinBoth(a[1..], b);
      assert a[0] + [NEWLINE] + JoinLines(a[1..] + b) == a[0] + [NEWLINE] + JoinLines(a[1..]) + [NEWLINE] + JoinLines(b);
    }
  }

  /** Trimming keeps what lies between two characters that are no blanks. */
  lemma {:induction false} TrimEndReaches(s: Str, i: nat)
    requires i < |s| && !IsSpace(s[i])
    ensures |TrimEnd(s)| > i
  {
    if IsSpace(s[|s| - 1]) {
      TrimEndReaches(s[..|s| - 1], i);
    }
  }

  /** What follows a fence inside the settings is longer than the body alone, however it is trimmed. */
  lemma LongerThanBody(front: Str, body: Str)
    requires front != [] && !IsSpace(front[0]) && Trimmed(body)
    ensures |Trim(front + body)| > |body|
  {
    var after := front + body;
    assert TrimStart(after) == after;
    TrimEndReaches(after, if body == [] then 0 else |after| - 1);
  }

  /** The first line of a setting whose key begins like a fence: what comes after the dashes is no blank. */
  lemma FencedLine(s: Setting)
    requires WellFormedKey(s.key) && Fenced(s.key)
    ensures SettingLines(s) != [] && |SettingLines(s)[0]| >= 4
    ensures Fenced(SettingLines(s)[0]) && !IsSpace(SettingLines(s)[0][3])
  {
    var line := SettingLines(s)[0];
    assert line[|s.key|] == COLON;
    assert forall i :: 0 <= i < |s.key| ==> s.key[i] == line[i];
  }

  lemma {:induction false} JoinBegins(lines: seq<Str>)
    requires lines != []
    ensures |JoinLines(lines)| >= |lines[0]| && JoinLines(lines)[..|lines[0]|] == lines[0]
  {
  }

  lemma FirstLine(ss: seq<Setting>)
    requires ss != []
    ensures Lines(ss) != [] && Lines(ss)[0] == SettingLines(ss[0])[0]
  {
  }

  lemma FencedJoin(ss: seq<Setting>)
    requires WellFormedSettings(ss) && Fenced(ss[0].key)
    ensures Lines(ss) != []
    ensures var text := JoinLines(Lines(ss)); |text| >= 4 && Fenced(text) && !IsSpace(text[3])
  {
    FirstLine(ss);
    FencedLine(ss[0]);
    var line, text := Lines(ss)[0], JoinLines(Lines(ss));
    JoinBegins(Lines(ss));
    assert forall i :: 0 <= i < |line| ==> text[..|line|][i] == text[i];
  }

  /** What remains after the dashes of a line that begins like a fence. */
  function AfterFence(rest: Str, body: Str): Str
    requires Fenced(rest)
  {
    rest[3..] + (CLOSING + ([NEWLINE] + body))
  }

  lemma AfterFenceIsLong(rest: Str, body: Str)
    requires Fenced(rest) && |rest| >= 4 && !IsSpace(rest[3]) && Trimmed(body)
    ensures |Trim(AfterFence(rest, body))| > |body|
  {
    var front := rest[3..] + (CLOSING + [NEWLINE]);
    assert front[0] == rest[3];
    Assoc(CLOSING, [NEWLINE], body);
    Assoc(rest[3..], CLOSING + [NEWLINE], body);
    LongerThanBody(front, body);
  }

  lemma CutIsParsed(g: Grammar, text: Str, s: Sections)
    requires SectionsOf(text) == Some(s)
    ensures ParseText(g, text).body == Trim(s.after)
  {
  }

  lemma FenceRunsOver(g: Grammar, front: Str, rest: Str, body: Str)
    requires Fenced(rest) && |rest| >= 4 && !IsSpace(rest[3]) && Trimmed(body)
    requires FindClosing(front + (CLOSING + AfterFence(rest, body))) == Some(|front|)
    ensures ParseText(g, OPENING + (front + [NEWLINE] + rest) + CLOSING + [NEWLINE] + body).body != body
  {
    var more := AfterFence(rest, body);
    FencedIsCut(front, more);
    SplitAtFence(front, rest, body);
    CutIsParsed(g, OPENING + front + CLOSING + more, Sections(front, more));
    AfterFenceIsLong(rest, body);
  }

  /** A later key that begins like a fence closes the frontmatter, and what is left runs into the body. */
  lemma FenceEndsEarly(g: Grammar, a: seq<Setting>, b: seq<Setting>, body: Str)
    requires WellFormedSettings(a) && WellFormedSettings(b) && NoLaterFence(a) && Fenced(b[0].key) && Trimmed(body)
    ensures Lines(a + b) != [] && ParseText(g, Render(a + b, body)).body != body
  {
    LinesAreGood(a);
    LinesOfBoth(a, b);
    FencedJoin(b);
    var front, rest := JoinLines(Lines(a)), JoinLines(Lines(b));
    JoinBoth(Lines(a), Lines(b));
    ClosingIsFound(Lines(a), CLOSING + AfterFence(rest, body));
    FenceRunsOver(g, front, rest, body);
  }

  lemma SplitAtFence(front: Str, rest: Str, body: Str)
    requires Fenced(rest)
    ensures OPENING + (front + [NEWLINE] + rest) + CLOSING + [NEWLINE] + body
         == OPENING + front + CLOSING + AfterFence(rest, body)
  {
    assert rest == [DASH, DASH, DASH] + rest[3..];
    assert [NEWLINE] + rest == CLOSING + rest[3..];
  }

  lemma FirstFence(ss: seq<Setting>) returns (j: nat)
    requires !NoLaterFence(ss)
    ensures 1 <= j < |ss| && Fenced(ss[j].key) && NoLaterFence(ss[..j])
  {
    j := 1;
    while !Fenced(ss[j].key)
      invariant 1 <= j < |ss| && forall i :: 1 <= i < j ==> !Fenced(ss[i].key)
      decreases |ss| - j
    {
      if j + 1 == |ss| {
        assert false;
      }
      j := j + 1;
    }
  }

  lemma LaterFenceBreaks(g: Grammar, ss: seq<Setting>, body: Str)
    requires WellFormedSettings(ss) && !NoLaterFence(ss) && Trimmed(body)
    ensures Lines(ss) != [] && ParseText(g, Render(ss, body)).body != body
  {
    var j := FirstFence(ss);
    assert ss == ss[..j] + ss[j..];
    FenceEndsEarly(g, ss[..j], ss[j..], body);
  }

  /**
    Rendered in the documented format, settings parse back, with the body beside them, exactly when no key after
    the first begins like a fence and none is the name of the prototype.
   */
  lemma FrontmatterRoundTrip(ss: seq<Setting>, body: Str)
    requires WellFormedSettings(ss) && Trimmed(body) && !HasCrLf(body)
    ensures Lines(ss) != []
    ensures Parse(Render(ss, body)) == Frontmatter(DataOf(map[], ss), body) <==> NoLaterFence(ss) && NoProto(ss)
  {
    LinesAreGood(ss);
    RenderHasNoCrLf(ss, body);
    NormalizeLf(Render(ss, body));
    if !NoLaterFence(ss) {
      LaterFenceBreaks(GRAMMAR, ss, body);
    } else if !NoProto(ss) {
      ProtoIsLost(GRAMMAR, ss, Render(ss, body));
    } else {
      forall i | 0 <= i < |ss| ensures Understands(GRAMMAR, ss[i]) {
        GrammarUnderstands(ss[i]);
      }
      RenderedIsRead(GRAMMAR, ss, body);
    }
  }

  /** With distinct keys, the data holds exactly the settings. */
  lemma {:induction false} DataHolds(data: map<Str, Value>, ss: seq<Setting>)
    requires forall i, j :: 0 <= i < j < |ss| ==> ss[i].key != ss[j].key
    ensures forall i :: 0 <= i < |ss| ==> ss[i].key in DataOf(data, ss) && DataOf(data, ss)[ss[i].key] == ValueOf(ss[i].content)
    ensures forall k :: k in DataOf(data, ss) && k !in data ==> exists i :: 0 <= i < |ss| && ss[i].key == k
    ensures forall k :: k in data && (forall i :: 0 <= i < |ss| ==> ss[i].key != k) ==> k in DataOf(data, ss) && DataOf(data, ss)[k] == data[k]
    decreases |ss|
  {
    if ss != [] {
      var rest, next := ss[1..], data[ss[0].key := ValueOf(ss[0].content)];
      DataHolds(next, rest);
      forall i | 0 <= i < |rest| ensures rest[i] == ss[i + 1] && rest[i].key != ss[0].key {
      }
      assert next[ss[0].key] == ValueOf(ss[0].content);
    }
  }
}
