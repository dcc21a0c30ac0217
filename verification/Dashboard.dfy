/** The in-memory dashboard snapshot: weekly results by department and claims ratios, against the SQL views. */
module Dashboard {
  import opened Text
  import opened Json

  // ---------- weeks ----------

  const DAY_MS := 86_400_000

  /** getUTCDay of a day counted from 1 January 1970, a Thursday: 0 is Sunday. */
  function WeekDay(day: int): nat { (day + 4) % 7 }

  const MONDAY := 1

  function UtcDay(ms: int): int { ms / DAY_MS }

  function MondayOf(day: int): int { day - (WeekDay(day) + 6) % 7 }

  /** Days are counted in UTC from a Thursday, and week days follow each other. */
  lemma DaysAreCounted(ms: int, day: int)
    ensures UtcDay(ms) * 86_400_000 <= ms < (UtcDay(ms) + 1) * 86_400_000
    ensures WeekDay(0) == 4 && WeekDay(day + 1) == (WeekDay(day) + 1) % 7
  {
  }

  /** Weeks start on Monday: the one Monday at most six days back, as in ISO 8601. */
  lemma WeeksStartOnMonday(day: int, m: int)
    ensures m == MondayOf(day) <==> WeekDay(m) == MONDAY && m <= day < m + 7
  {
  }

  /** The day date_trunc('week', ...) goes back to, one day at a time. */
  function TruncateToWeek(day: int): int
    decreases (WeekDay(day) + 6) % 7
  {
    if WeekDay(day) == MONDAY then day else TruncateToWeek(day - 1)
  }

  lemma {:induction false} TruncationIsMonday(day: int)
    ensures TruncateToWeek(day) == MondayOf(day)
    decreases (WeekDay(day) + 6) % 7
  {
    if WeekDay(day) != MONDAY {
      TruncationIsMonday(day - 1);
      WeeksStartOnMonday(day, MondayOf(day - 1));
    }
  }

  // ---------- the ledger ----------

  datatype Category = Prime | Reglement | Provision | Frais | Marketing

  datatype Entry = Entry(id: nat, departement: Str, category: Category, amount: int)
  {
    predicate IsCharge() { category == Reglement || category == Provision }
  }

  /** What the snapshot reads: the ledger, the known timestamps, how a day prints, and localeCompare. */
  datatype State = State(pnl: seq<Entry>, createdAt: map<nat, int>, isoDate: int -> Str, compare: (Str, Str) -> int)
  {
    ghost predicate Valid() { forall d :: BAR !in isoDate(d) }

    /** Texts are compared consistently, and week texts that differ are told apart. */
    ghost predicate Collates() {
      && (forall a, b :: compare(a, b) > 0 <==> compare(b, a) < 0)
      && (forall a, b, c :: compare(a, b) <= 0 && compare(b, c) <= 0 ==> compare(a, c) <= 0)
      && (forall a, b :: IsWeek(a) && IsWeek(b) && compare(a, b) == 0 ==> a == b)
    }

    ghost predicate IsWeek(t: Str) { t == NO_DATE || exists d :: t == isoDate(d) }
  }

  const NO_DATE: Str := Of("n-d")

  /** isoWeekOf: the Monday of a known timestamp. */
  function WeekOf(st: State, e: Entry): Str {
    if e.id in st.createdAt then st.isoDate(MondayOf(UtcDay(st.createdAt[e.id]))) else NO_DATE
  }

  /** The week of the SQL view. */
  function ViewWeekOf(st: State, e: Entry): Str {
    if e.id in st.createdAt then st.isoDate(TruncateToWeek(UtcDay(st.createdAt[e.id]))) else NO_DATE
  }

  lemma WeeksAgree(st: State, e: Entry)
    ensures ViewWeekOf(st, e) == WeekOf(st, e)
  {
    if e.id in st.createdAt {
      TruncationIsMonday(UtcDay(st.createdAt[e.id]));
    }
  }

  function Key(week: Str, departement: Str): Str { week + [BAR] + departement }

  function KeyOf(st: State, e: Entry): Str { Key(WeekOf(st, e), e.departement) }

  /** The composite key tells week and department apart: no week contains the separator. */
  lemma {:induction false} KeyIsInjective(w1: Str, d1: Str, w2: Str, d2: Str)
    requires BAR !in w1 && BAR !in w2 && Key(w1, d1) == Key(w2, d2)
    ensures w1 == w2 && d1 == d2
  {
    var k := Key(w1, d1);
    FirstBar(w1, d1);
    FirstBar(w2, d2);
    assert w1 == k[..|w1|] && w2 == k[..|w2|];
    assert d1 == k[|w1| + 1..] && d2 == k[|w2| + 1..];
  }

  lemma FirstBar(week: Str, departement: Str)
    requires BAR !in week
    ensures Key(week, departement)[|week|] == BAR
    ensures forall i :: 0 <= i < |week| ==> Key(week, departement)[i] != BAR
  {
  }

  lemma WeekHasNoBar(st: State, e: Entry)
    requires st.Valid()
    ensures BAR !in WeekOf(st, e)
  {
  }

  // ---------- sums over the ledger ----------

  function Total(pnl: seq<Entry>): int {
    if pnl == [] then 0 else Total(pnl[..|pnl| - 1]) + pnl[|pnl| - 1].amount
  }

  /** What the entries under a composite key add up to. */
  function Net(st: State, pnl: seq<Entry>, key: Str): int {
    if pnl == [] then 0
    else
      var e := pnl[|pnl| - 1];
      Net(st, pnl[..|pnl| - 1], key) + if KeyOf(st, e) == key then e.amount else 0
  }

  /** GROUP BY week and department, as v_pnl_hebdo does: the group's resultat_net. */
  function GroupNet(st: State, pnl: seq<Entry>, week: Str, departement: Str): int {
    if pnl == [] then 0
    else
      var e := pnl[|pnl| - 1];
      GroupNet(st, pnl[..|pnl| - 1], week, departement)
        + if ViewWeekOf(st, e) == week && e.departement == departement then e.amount else 0
  }

  lemma {:induction false} NetIsGroupNet(st: State, pnl: seq<Entry>, week: Str, departement: Str)
    requires st.Valid() && BAR !in week
    ensures Net(st, pnl, Key(week, departement)) == GroupNet(st, pnl, week, departement)
  {
    if pnl != [] {
      var e := pnl[|pnl| - 1];
      NetIsGroupNet(st, pnl[..|pnl| - 1], week, departement);
      WeeksAgree(st, e);
      if KeyOf(st, e) == Key(week, departement) {
        KeyIsInjective(WeekOf(st, e), e.departement, week, departement);
      }
    }
  }

  // ---------- the weekly rows ----------

  datatype WeeklyRow = WeeklyRow(week: Str, departement: Str, net: int)

  function SumNets(rows: seq<WeeklyRow>): int {
    if rows == [] then 0 else SumNets(rows[..|rows| - 1]) + rows[|rows| - 1].net
  }

  /** A Map of weekly rows, and its keys in the order they were first set. */
  datatype Groups = Groups(rows: map<Str, WeeklyRow>, order: seq<Str>)

  predicate Distinct(keys: seq<Str>) { forall i, j :: 0 <= i < j < |keys| ==> keys[i] != keys[j] }

  ghost predicate OrderOk(g: Groups) { Distinct(g.order) && forall k :: k in g.rows <==> k in g.order }

  /** Each row holds its group's sum. */
  ghost predicate RowsOk(st: State, pnl: seq<Entry>, g: Groups) {
    forall k :: k in g.rows ==>
      g.rows[k].net == Net(st, pnl, k) && k == Key(g.rows[k].week, g.rows[k].departement) && BAR !in g.rows[k].week
  }

  ghost predicate Covers(st: State, pnl: seq<Entry>, g: Groups) { forall e :: e in pnl ==> KeyOf(st, e) in g.rows }

  ghost predicate WeeklyOf(st: State, pnl: seq<Entry>, g: Groups) { OrderOk(g) && RowsOk(st, pnl, g) && Covers(st, pnl, g) }

  /** A group nobody is in adds up to nothing. */
  lemma {:induction false} EmptyGroup(st: State, pnl: seq<Entry>, key: Str)
    requires forall e :: e in pnl ==> KeyOf(st, e) != key
    ensures Net(st, pnl, key) == 0
  {
    if pnl != [] {
      EmptyGroup(st, pnl[..|pnl| - 1], key);
    }
  }

  function WithEntry(st: State, g: Groups, e: Entry): Groups {
    var key := KeyOf(st, e);
    if key in g.rows then g.(rows := g.rows[key := g.rows[key].(net := g.rows[key].net + e.amount)])
    else Groups(g.rows[key := WeeklyRow(WeekOf(st, e), e.departement, e.amount)], g.order + [key])
  }

  function Grouping(st: State, pnl: seq<Entry>): Groups {
    if pnl == [] then Groups(map[], []) else WithEntry(st, Grouping(st, pnl[..|pnl| - 1]), pnl[|pnl| - 1])
  }

  method GroupByWeek(st: State) returns (byWeekDept: map<Str, WeeklyRow>, order: seq<Str>)
    ensures Groups(byWeekDept, order) == Grouping(st, st.pnl)
  {
    byWeekDept, order := map[], [];
    for i := 0 to |st.pnl|
      invariant Groups(byWeekDept, order) == Grouping(st, st.pnl[..i])
    {
      var e := st.pnl[i];
      assert st.pnl[..i + 1][..i] == st.pnl[..i];
      var week := WeekOf(st, e);
      var key := Key(week, e.departement);
      if key in byWeekDept {
        byWeekDept := byWeekDept[key := byWeekDept[key].(net := byWeekDept[key].net + e.amount)];
      } else {
        order, byWeekDept := order + [key], byWeekDept[key := WeeklyRow(week, e.departement, e.amount)];
      }
    }
    assert st.pnl[..|st.pnl|] == st.pnl;
  }

  lemma {:induction false} GroupingIsWeekly(st: State, pnl: seq<Entry>)
    requires st.Valid()
    ensures WeeklyOf(st, pnl, Grouping(st, pnl))
  {
    if pnl != [] {
      GroupingIsWeekly(st, pnl[..|pnl| - 1]);
      WeeklyStep(st, pnl, Grouping(st, pnl[..|pnl| - 1]));
    }
  }

  method Cumulative(pnl: seq<Entry>) returns (sum: int)
    ensures sum == Total(pnl)
  {
    sum := 0;
    for i := 0 to |pnl|
      invariant sum == Total(pnl[..i])
    {
      assert pnl[..i + 1][..i] == pnl[..i];
      sum := sum + pnl[i].amount;
    }
    assert pnl[..|pnl|] == pnl;
  }

  /** The rows in the order their groups first appeared. */
  function Hebdo(g: Groups): (r: seq<WeeklyRow>)
    requires forall k :: k in g.order ==> k in g.rows
    ensures |r| == |g.order| && forall i :: 0 <= i < |r| ==> r[i] == g.rows[g.order[i]]
  {
    seq(|g.order|, i requires 0 <= i < |g.order| => g.rows[g.order[i]])
  }

  /** The comparator of pnlHebdo: the latest week first, departments in order within a week. */
  function RowCompare(st: State, a: WeeklyRow, b: WeeklyRow): int {
    if a.week == b.week then st.compare(a.departement, b.departement) else st.compare(b.week, a.week)
  }

  function Inserted(st: State, r: WeeklyRow, rows: seq<WeeklyRow>): seq<WeeklyRow> {
    if rows == [] || RowCompare(st, r, rows[0]) <= 0 then [r] + rows else [rows[0]] + Inserted(st, r, rows[1..])
  }

  /** Array.prototype.sort, which is stable. */
  function Sorted(st: State, rows: seq<WeeklyRow>): seq<WeeklyRow> {
    if rows == [] then [] else Inserted(st, rows[0], Sorted(st, rows[1..]))
  }

  /** pnlHebdo and resultat_cumule. */
  method Weekly(st: State) returns (hebdo: seq<WeeklyRow>, cumulative: int)
    requires st.Valid()
    ensures WeeklyOf(st, st.pnl, Grouping(st, st.pnl)) && hebdo == Sorted(st, Hebdo(Grouping(st, st.pnl)))
    ensures cumulative == Total(st.pnl)
  {
    var byWeekDept, order := GroupByWeek(st);
    GroupingIsWeekly(st, st.pnl);
    hebdo := Sorted(st, Hebdo(Groups(byWeekDept, order)));
    cumulative := Cumulative(st.pnl);
  }

  lemma {:induction false} OrderStep(st: State, g: Groups, e: Entry)
    requires OrderOk(g)
    ensures OrderOk(WithEntry(st, g, e))
  {
  }

  lemma {:induction false} RowsStep(st: State, pnl: seq<Entry>, g: Groups)
    requires st.Valid() && pnl != [] && RowsOk(st, pnl[..|pnl| - 1], g) && Covers(st, pnl[..|pnl| - 1], g)
    ensures RowsOk(st, pnl, WithEntry(st, g, pnl[|pnl| - 1]))
  {
    var before, e := pnl[..|pnl| - 1], pnl[|pnl| - 1];
    WeekHasNoBar(st, e);
    if KeyOf(st, e) !in g.rows {
      EmptyGroup(st, before, KeyOf(st, e));
    }
  }

  /** What one more entry does to the rows. */
  lemma {:induction false} WeeklyStep(st: State, pnl: seq<Entry>, g: Groups)
    requires st.Valid() && pnl != [] && WeeklyOf(st, pnl[..|pnl| - 1], g)
    ensures WeeklyOf(st, pnl, WithEntry(st, g, pnl[|pnl| - 1]))
  {
    OrderStep(st, g, pnl[|pnl| - 1]);
    RowsStep(st, pnl, g);
    assert pnl == pnl[..|pnl| - 1] + [pnl[|pnl| - 1]];
  }

  predicate GroupsDiffer(rows: seq<WeeklyRow>) {
    forall i, j :: 0 <= i < j < |rows| ==> (rows[i].week, rows[i].departement) != (rows[j].week, rows[j].departement)
  }

  /** One row for each week and department of the view, with the group's sum. */
  ghost predicate AreGroups(st: State, pnl: seq<Entry>, hebdo: seq<WeeklyRow>) {
    && (forall r :: r in hebdo ==> r.net == GroupNet(st, pnl, r.week, r.departement))
    && GroupsDiffer(hebdo)
    && (forall e :: e in pnl ==> exists r :: r in hebdo && r.week == ViewWeekOf(st, e) && r.departement == e.departement)
  }

  lemma {:induction false} HebdoIsGroups(st: State, pnl: seq<Entry>)
    requires st.Valid()
    ensures WeeklyOf(st, pnl, Grouping(st, pnl))
    ensures AreGroups(st, pnl, Hebdo(Grouping(st, pnl)))
  {
    GroupingIsWeekly(st, pnl);
    var g, hebdo := Grouping(st, pnl), Hebdo(Grouping(st, pnl));
    forall r | r in hebdo ensures r.net == GroupNet(st, pnl, r.week, r.departement) {
      var i :| 0 <= i < |hebdo| && hebdo[i] == r;
      assert g.order[i] in g.rows;
      NetIsGroupNet(st, pnl, r.week, r.departement);
    }
    forall i | 0 <= i < |hebdo| ensures Key(hebdo[i].week, hebdo[i].departement) == g.order[i] {
      assert g.order[i] in g.rows;
    }
    forall e | e in pnl ensures exists r :: r in hebdo && r.week == ViewWeekOf(st, e) && r.departement == e.departement {
      WeeksAgree(st, e);
      var i := IndexOf(g.order, KeyOf(st, e));
      assert g.order[i] in g.rows;
      WeekHasNoBar(st, e);
      KeyIsInjective(WeekOf(st, e), e.departement, hebdo[i].week, hebdo[i].departement);
      assert hebdo[i] in hebdo;
    }
  }

  /** The snapshot's rows are exactly the groups of the view: one each, with the group's sum. */
  lemma {:induction false} RowsAreGroups(st: State, pnl: seq<Entry>)
    requires st.Valid()
    ensures WeeklyOf(st, pnl, Grouping(st, pnl))
    ensures AreGroups(st, pnl, Sorted(st, Hebdo(Grouping(st, pnl))))
  {
    HebdoIsGroups(st, pnl);
    SortKeepsRows(st, Hebdo(Grouping(st, pnl)));
  }

  // ---------- the order of the rows ----------

  lemma {:induction false} InsertKeepsRows(st: State, r: WeeklyRow, rows: seq<WeeklyRow>)
    ensures forall x :: x in Inserted(st, r, rows) <==> x == r || x in rows
    ensures SumNets(Inserted(st, r, rows)) == r.net + SumNets(rows)
    ensures GroupsDiffer([r] + rows) ==> GroupsDiffer(Inserted(st, r, rows))
  {
    if rows == [] || RowCompare(st, r, rows[0]) <= 0 {
      SumsAfter(r, rows);
    } else {
      var rest := Inserted(st, r, rows[1..]);
      InsertKeepsRows(st, r, rows[1..]);
      SumsAfter(rows[0], rest);
      SumsAfter(rows[0], rows[1..]);
      assert rows == [rows[0]] + rows[1..];
      if GroupsDiffer([r] + rows) {
        TailsDiffer(r, rows);
        forall j | 0 <= j < |rest| ensures (rows[0].week, rows[0].departement) != (rest[j].week, rest[j].departement) {
          assert rest[j] in rest;
          FirstDiffers(r, rows, rest[j]);
        }
      }
    }
  }

  lemma TailsDiffer(r: WeeklyRow, rows: seq<WeeklyRow>)
    requires rows != [] && GroupsDiffer([r] + rows)
    ensures GroupsDiffer([r] + rows[1..])
  {
    var all, some := [r] + rows, [r] + rows[1..];
    forall i, j | 0 <= i < j < |some| ensures (some[i].week, some[i].departement) != (some[j].week, some[j].departement) {
      assert some[j] == all[j + 1] && some[i] == all[if i == 0 then 0 else i + 1];
    }
  }

  lemma FirstDiffers(r: WeeklyRow, rows: seq<WeeklyRow>, x: WeeklyRow)
    requires rows != [] && GroupsDiffer([r] + rows) && (x == r || x in rows[1..])
    ensures (rows[0].week, rows[0].departement) != (x.week, x.departement)
  {
    var all := [r] + rows;
    assert all[0] == r && all[1] == rows[0];
    if x in rows[1..] {
      var i :| 0 <= i < |rows[1..]| && rows[1..][i] == x;
      assert all[i + 2] == x;
    }
  }

  lemma {:induction false} SumsAfter(r: WeeklyRow, rows: seq<WeeklyRow>)
    ensures SumNets([r] + rows) == r.net + SumNets(rows)
    decreases |rows|
  {
    var all := [r] + rows;
    if rows != [] {
      SumsAfter(r, rows[..|rows| - 1]);
      assert all[..|all| - 1] == [r] + rows[..|rows| - 1];
    }
  }

  /** Sorting loses no row, adds none, and keeps their sum. */
  lemma {:induction false} SortKeepsRows(st: State, rows: seq<WeeklyRow>)
    ensures forall x :: x in Sorted(st, rows) <==> x in rows
    ensures SumNets(Sorted(st, rows)) == SumNets(rows)
    ensures GroupsDiffer(rows) ==> GroupsDiffer(Sorted(st, rows))
  {
    if rows != [] {
      SortKeepsRows(st, rows[1..]);
      InsertKeepsRows(st, rows[0], Sorted(st, rows[1..]));
      SumsAfter(rows[0], rows[1..]);
      assert rows == [rows[0]] + rows[1..];
      if GroupsDiffer(rows) {
        RestDiffers(rows);
        FirstAlsoDiffers(rows[0], Sorted(st, rows[1..]));
      }
    }
  }

  lemma FirstAlsoDiffers(r: WeeklyRow, rest: seq<WeeklyRow>)
    requires GroupsDiffer(rest) && forall x :: x in rest ==> (r.week, r.departement) != (x.week, x.departement)
    ensures GroupsDiffer([r] + rest)
  {
  }

  lemma RestDiffers(rows: seq<WeeklyRow>)
    requires rows != [] && GroupsDiffer(rows)
    ensures GroupsDiffer(rows[1..])
    ensures forall x :: x in rows[1..] ==> (rows[0].week, rows[0].departement) != (x.week, x.departement)
  {
    forall x | x in rows[1..] ensures (rows[0].week, rows[0].departement) != (x.week, x.departement) {
      var i :| 0 <= i < |rows[1..]| && rows[1..][i] == x;
      assert rows[i + 1] == x;
    }
    forall i, j | 0 <= i < j < |rows[1..]|
      ensures (rows[1..][i].week, rows[1..][i].departement) != (rows[1..][j].week, rows[1..][j].departement)
    {
      assert rows[1..][i] == rows[i + 1] && rows[1..][j] == rows[j + 1];
    }
  }

  ghost predicate InOrder(st: State, rows: seq<WeeklyRow>) {
    forall i, j :: 0 <= i < j < |rows| ==> RowCompare(st, rows[i], rows[j]) <= 0
  }

  ghost predicate HaveWeeks(st: State, rows: seq<WeeklyRow>) { forall x :: x in rows ==> st.IsWeek(x.week) }

  /** The comparator is consistent on rows with weeks. */
  lemma CompareIsConsistent(st: State, a: WeeklyRow, b: WeeklyRow, c: WeeklyRow)
    requires st.Collates() && st.IsWeek(a.week) && st.IsWeek(b.week) && st.IsWeek(c.week)
    ensures RowCompare(st, a, b) > 0 <==> RowCompare(st, b, a) < 0
    ensures RowCompare(st, a, b) <= 0 && RowCompare(st, b, c) <= 0 ==> RowCompare(st, a, c) <= 0
  {
    assert st.compare(a.week, b.week) > 0 <==> st.compare(b.week, a.week) < 0;
    assert st.compare(c.week, b.week) > 0 <==> st.compare(b.week, c.week) < 0;
    if a.week == c.week && a.week != b.week {
      assert st.compare(b.week, a.week) > 0 <==> st.compare(a.week, b.week) < 0;
    }
  }

  lemma FirstInOrder(st: State, r: WeeklyRow, rows: seq<WeeklyRow>)
    requires InOrder(st, rows) && forall x :: x in rows ==> RowCompare(st, r, x) <= 0
    ensures InOrder(st, [r] + rows)
  {
    var all := [r] + rows;
    forall i, j | 0 <= i < j < |all| ensures RowCompare(st, all[i], all[j]) <= 0 {
      assert all[j] == rows[j - 1];
      if i > 0 {
        assert all[i] == rows[i - 1];
      }
    }
  }

  /** What comes first comes before all the rest. */
  lemma FirstIsLeast(st: State, rows: seq<WeeklyRow>, x: WeeklyRow)
    requires rows != [] && InOrder(st, rows) && x in rows[1..]
    ensures RowCompare(st, rows[0], x) <= 0
  {
    var i :| 0 <= i < |rows[1..]| && rows[1..][i] == x;
    assert rows[i + 1] == x;
  }

  lemma TailInOrder(st: State, rows: seq<WeeklyRow>)
    requires rows != [] && InOrder(st, rows)
    ensures InOrder(st, rows[1..])
  {
    forall i, j | 0 <= i < j < |rows[1..]| ensures RowCompare(st, rows[1..][i], rows[1..][j]) <= 0 {
      assert rows[1..][i] == rows[i + 1] && rows[1..][j] == rows[j + 1];
    }
  }

  lemma {:induction false} InsertOrders(st: State, r: WeeklyRow, rows: seq<WeeklyRow>)
    requires st.Collates() && st.IsWeek(r.week) && HaveWeeks(st, rows) && InOrder(st, rows)
    ensures InOrder(st, Inserted(st, r, rows))
  {
    if rows == [] || RowCompare(st, r, rows[0]) <= 0 {
      forall x | x in rows ensures RowCompare(st, r, x) <= 0 {
        if x != rows[0] {
          assert x in rows[1..];
          FirstIsLeast(st, rows, x);
          CompareIsConsistent(st, r, rows[0], x);
        }
      }
      FirstInOrder(st, r, rows);
    } else {
      var rest := Inserted(st, r, rows[1..]);
      TailInOrder(st, rows);
      InsertOrders(st, r, rows[1..]);
      InsertKeepsRows(st, r, rows[1..]);
      CompareIsConsistent(st, r, rows[0], r);
      forall x | x in rest ensures RowCompare(st, rows[0], x) <= 0 {
        if x != r {
          FirstIsLeast(st, rows, x);
        }
      }
      FirstInOrder(st, rows[0], rest);
    }
  }

  lemma {:induction false} SortOrders(st: State, rows: seq<WeeklyRow>)
    requires st.Collates() && HaveWeeks(st, rows)
    ensures InOrder(st, Sorted(st, rows))
  {
    if rows != [] {
      SortOrders(st, rows[1..]);
      SortKeepsRows(st, rows[1..]);
      InsertOrders(st, rows[0], Sorted(st, rows[1..]));
    }
  }

  lemma {:induction false} GroupingHasWeeks(st: State, pnl: seq<Entry>)
    ensures forall k :: k in Grouping(st, pnl).rows ==> st.IsWeek(Grouping(st, pnl).rows[k].week)
  {
    if pnl != [] {
      GroupingHasWeeks(st, pnl[..|pnl| - 1]);
    }
  }

  /** The latest week first, and the departments of a week in order. */
  predicate LatestFirst(st: State, a: WeeklyRow, b: WeeklyRow) {
    if a.week == b.week then st.compare(a.departement, b.departement) <= 0 else st.compare(a.week, b.week) > 0
  }

  lemma ComparedIsLatestFirst(st: State, a: WeeklyRow, b: WeeklyRow)
    requires st.Collates() && st.IsWeek(a.week) && st.IsWeek(b.week) && RowCompare(st, a, b) <= 0
    ensures LatestFirst(st, a, b)
  {
    assert st.compare(a.week, b.week) > 0 <==> st.compare(b.week, a.week) < 0;
  }

  lemma HebdoHasWeeks(st: State, pnl: seq<Entry>)
    requires st.Valid()
    ensures WeeklyOf(st, pnl, Grouping(st, pnl)) && HaveWeeks(st, Hebdo(Grouping(st, pnl)))
  {
    GroupingIsWeekly(st, pnl);
    GroupingHasWeeks(st, pnl);
    var g := Grouping(st, pnl);
    forall x | x in Hebdo(g) ensures st.IsWeek(x.week) {
      var i :| 0 <= i < |Hebdo(g)| && Hebdo(g)[i] == x;
      assert g.order[i] in g.rows;
    }
  }

  lemma RowsAreOrdered(st: State, pnl: seq<Entry>)
    requires st.Valid() && st.Collates()
    ensures WeeklyOf(st, pnl, Grouping(st, pnl))
    ensures var hebdo := Sorted(st, Hebdo(Grouping(st, pnl)));
      forall i, j :: 0 <= i < j < |hebdo| ==> LatestFirst(st, hebdo[i], hebdo[j])
  {
    HebdoHasWeeks(st, pnl);
    var rows := Hebdo(Grouping(st, pnl));
    var hebdo := Sorted(st, rows);
    SortKeepsRows(st, rows);
    SortOrders(st, rows);
    forall i, j | 0 <= i < j < |hebdo| ensures LatestFirst(st, hebdo[i], hebdo[j]) {
      assert hebdo[i] in hebdo && hebdo[j] in hebdo;
      ComparedIsLatestFirst(st, hebdo[i], hebdo[j]);
    }
  }

  lemma IndexOf(keys: seq<Str>, key: Str) returns (i: nat)
    requires key in keys
    ensures i < |keys| && keys[i] == key
  {
    i :| 0 <= i < |keys| && keys[i] == key;
  }

  // ---------- conservation ----------

  function NetSum(st: State, pnl: seq<Entry>, keys: seq<Str>): int {
    if keys == [] then 0 else NetSum(st, pnl, keys[..|keys| - 1]) + Net(st, pnl, keys[|keys| - 1])
  }

  /** One more entry adds its amount once, to the group it is in. */
  lemma {:induction false} EntryCountsOnce(st: State, pnl: seq<Entry>, keys: seq<Str>)
    requires pnl != [] && Distinct(keys)
    ensures var e := pnl[|pnl| - 1];
      NetSum(st, pnl, keys) == NetSum(st, pnl[..|pnl| - 1], keys) + if KeyOf(st, e) in keys then e.amount else 0
  {
    if keys != [] {
      var n := |keys| - 1;
      EntryCountsOnce(st, pnl, keys[..n]);
      assert keys == keys[..n] + [keys[n]];
    }
  }

  /** In whatever order the groups come, their sums add up to the whole ledger. */
  lemma {:induction false} ConservedByKeys(st: State, pnl: seq<Entry>, keys: seq<Str>)
    requires Distinct(keys) && forall e :: e in pnl ==> KeyOf(st, e) in keys
    ensures NetSum(st, pnl, keys) == Total(pnl)
  {
    if pnl == [] {
      NothingNets(st, keys);
    } else {
      EntryCountsOnce(st, pnl, keys);
      ConservedByKeys(st, pnl[..|pnl| - 1], keys);
    }
  }

  lemma {:induction false} NothingNets(st: State, keys: seq<Str>)
    ensures NetSum(st, [], keys) == 0
  {
    if keys != [] {
      NothingNets(st, keys[..|keys| - 1]);
    }
  }

  lemma {:induction false} RowsSumToNets(st: State, pnl: seq<Entry>, rows: seq<WeeklyRow>, keys: seq<Str>)
    requires |rows| == |keys| && forall i :: 0 <= i < |keys| ==> rows[i].net == Net(st, pnl, keys[i])
    ensures SumNets(rows) == NetSum(st, pnl, keys)
  {
    if keys != [] {
      var n := |keys| - 1;
      RowsSumToNets(st, pnl, rows[..n], keys[..n]);
    }
  }

  /** The weekly rows add up to the cumulative result. */
  lemma {:induction false} WeeklyConserves(st: State, pnl: seq<Entry>)
    requires st.Valid()
    ensures WeeklyOf(st, pnl, Grouping(st, pnl))
    ensures SumNets(Sorted(st, Hebdo(Grouping(st, pnl)))) == Total(pnl)
  {
    GroupingIsWeekly(st, pnl);
    var g := Grouping(st, pnl);
    ConservedByKeys(st, pnl, g.order);
    forall i | 0 <= i < |g.order| ensures Hebdo(g)[i].net == Net(st, pnl, g.order[i]) {
      assert g.order[i] in g.rows;
    }
    RowsSumToNets(st, pnl, Hebdo(g), g.order);
    SortKeepsRows(st, Hebdo(g));
  }

  // ---------- claims ratios ----------

  function Primes(pnl: seq<Entry>, dep: Str): int {
    if pnl == [] then 0
    else
      var e := pnl[|pnl| - 1];
      Primes(pnl[..|pnl| - 1], dep) + if e.category == Prime && e.departement == dep then e.amount else 0
  }

  function AbsInt(x: int): nat { if x < 0 then -x else x }

  /** The snapshot's charges: the sum of absolute amounts. */
  function Charges(pnl: seq<Entry>, dep: Str): int {
    if pnl == [] then 0
    else
      var e := pnl[|pnl| - 1];
      Charges(pnl[..|pnl| - 1], dep) + if e.IsCharge() && e.departement == dep then AbsInt(e.amount) else 0
  }

  /** The view's charges, before ABS. */
  function SignedCharges(pnl: seq<Entry>, dep: Str): int {
    if pnl == [] then 0
    else
      var e := pnl[|pnl| - 1];
      SignedCharges(pnl[..|pnl| - 1], dep) + if e.IsCharge() && e.departement == dep then e.amount else 0
  }

  ghost predicate HasPrime(pnl: seq<Entry>, dep: Str) { exists e :: e in pnl && e.category == Prime && e.departement == dep }

  ghost predicate HasCharge(pnl: seq<Entry>, dep: Str) { exists e :: e in pnl && e.IsCharge() && e.departement == dep }

  method Ratios(st: State) returns (ratios: map<Str, Option<real>>)
    ensures forall dep :: dep in ratios <==> HasPrime(st.pnl, dep) || HasCharge(st.pnl, dep)
    ensures forall dep :: dep in ratios ==> ratios[dep] == SnapshotRatio(st.pnl, dep)
  {
    var primesBy, chargesBy := SumUp(st);
    TallyIsRight(st.pnl);
    ratios := map dep | dep in primesBy.Keys + chargesBy.Keys ::
      var primes := At(primesBy, dep);
      if primes > 0 then Some(At(chargesBy, dep) as real / primes as real) else None;
  }

  /** The loop over the ledger. */
  method SumUp(st: State) returns (primesBy: map<Str, int>, chargesBy: map<Str, int>)
    ensures Tally(primesBy, chargesBy) == TallyOf(st.pnl)
  {
    primesBy, chargesBy := map[], map[];
    for i := 0 to |st.pnl|
      invariant Tally(primesBy, chargesBy) == TallyOf(st.pnl[..i])
    {
      var e := st.pnl[i];
      assert st.pnl[..i + 1][..i] == st.pnl[..i];
      if e.category == Prime {
        primesBy := primesBy[e.departement := At(primesBy, e.departement) + e.amount];
      }
      if e.category == Reglement || e.category == Provision {
        chargesBy := chargesBy[e.departement := At(chargesBy, e.departement) + AbsInt(e.amount)];
      }
    }
    assert st.pnl[..|st.pnl|] == st.pnl;
  }

  /** The two Maps of sums by department. */
  datatype Tally = Tally(primes: map<Str, int>, charges: map<Str, int>)

  function Counted(t: Tally, e: Entry): Tally {
    Tally(if e.category == Prime then t.primes[e.departement := At(t.primes, e.departement) + e.amount] else t.primes,
          if e.IsCharge() then t.charges[e.departement := At(t.charges, e.departement) + AbsInt(e.amount)] else t.charges)
  }

  function TallyOf(pnl: seq<Entry>): Tally {
    if pnl == [] then Tally(map[], map[]) else Counted(TallyOf(pnl[..|pnl| - 1]), pnl[|pnl| - 1])
  }

  lemma {:induction false} TallyIsRight(pnl: seq<Entry>)
    ensures forall d :: (d in TallyOf(pnl).primes <==> HasPrime(pnl, d)) && At(TallyOf(pnl).primes, d) == Primes(pnl, d)
    ensures forall d :: (d in TallyOf(pnl).charges <==> HasCharge(pnl, d)) && At(TallyOf(pnl).charges, d) == Charges(pnl, d)
  {
    if pnl != [] {
      TallyIsRight(pnl[..|pnl| - 1]);
      EntryAppears(pnl);
    }
  }

  function At(m: map<Str, int>, d: Str): int { if d in m then m[d] else 0 }

  lemma EntryAppears(pnl: seq<Entry>)
    requires pnl != []
    ensures var e := pnl[|pnl| - 1];
      && (forall d :: HasPrime(pnl, d) <==> HasPrime(pnl[..|pnl| - 1], d) || (e.category == Prime && e.departement == d))
      && (forall d :: HasCharge(pnl, d) <==> HasCharge(pnl[..|pnl| - 1], d) || (e.IsCharge() && e.departement == d))
  {
    assert pnl == pnl[..|pnl| - 1] + [pnl[|pnl| - 1]];
  }

  function SnapshotRatio(pnl: seq<Entry>, dep: Str): Option<real> {
    if Primes(pnl, dep) > 0 then Some(Charges(pnl, dep) as real / Primes(pnl, dep) as real) else None
  }

  /** SUM(montant) FILTER (WHERE categorie IN ...) over a department. */
  function FilteredSum(pnl: seq<Entry>, dep: Str, categories: set<Category>): int {
    if pnl == [] then 0
    else
      var e := pnl[|pnl| - 1];
      FilteredSum(pnl[..|pnl| - 1], dep, categories) + if e.departement == dep && e.category in categories then e.amount else 0
  }

  /** v_ratio_sinistralite before ROUND: NULL when the premiums are missing or add up to zero. */
  function ViewRatio(pnl: seq<Entry>, dep: Str): Option<real> {
    var primes, charges := FilteredSum(pnl, dep, {Prime}), FilteredSum(pnl, dep, {Reglement, Provision});
    if primes == 0 then None else Some(AbsInt(charges) as real / primes as real)
  }

  lemma {:induction false} FiltersAgree(pnl: seq<Entry>, dep: Str)
    ensures FilteredSum(pnl, dep, {Prime}) == Primes(pnl, dep)
    ensures FilteredSum(pnl, dep, {Reglement, Provision}) == SignedCharges(pnl, dep)
  {
    if pnl != [] {
      FiltersAgree(pnl[..|pnl| - 1], dep);
    }
  }

  /** No department books charges of both signs. */
  ghost predicate OneSign(pnl: seq<Entry>, dep: Str) {
    || (forall e :: e in pnl && e.IsCharge() && e.departement == dep ==> e.amount <= 0)
    || (forall e :: e in pnl && e.IsCharge() && e.departement == dep ==> e.amount >= 0)
  }

  lemma {:induction false} ChargesBound(pnl: seq<Entry>, dep: Str)
    ensures AbsInt(SignedCharges(pnl, dep)) <= Charges(pnl, dep)
    ensures Charges(pnl, dep) == -SignedCharges(pnl, dep)
       <==> forall e :: e in pnl && e.IsCharge() && e.departement == dep ==> e.amount <= 0
    ensures Charges(pnl, dep) == SignedCharges(pnl, dep)
       <==> forall e :: e in pnl && e.IsCharge() && e.departement == dep ==> e.amount >= 0
  {
    if pnl != [] {
      var before, e := pnl[..|pnl| - 1], pnl[|pnl| - 1];
      ChargesBound(before, dep);
      assert pnl == before + [e];
    }
  }

  lemma SameQuotient(a: int, b: int, p: int)
    requires p > 0
    ensures a as real / p as real == b as real / p as real <==> a == b
  {
    if a as real / p as real == b as real / p as real {
      assert a as real / p as real * p as real == a as real;
      assert b as real / p as real * p as real == b as real;
    }
  }

  /** The snapshot and the view agree on a department exactly when its premiums are not negative and its charges have one sign. */
  lemma RatiosAgreeExactly(pnl: seq<Entry>, dep: Str)
    ensures SnapshotRatio(pnl, dep) == ViewRatio(pnl, dep)
       <==> Primes(pnl, dep) == 0 || (Primes(pnl, dep) > 0 && OneSign(pnl, dep))
  {
    FiltersAgree(pnl, dep);
    ChargesBound(pnl, dep);
    if Primes(pnl, dep) > 0 {
      SameQuotient(Charges(pnl, dep), AbsInt(SignedCharges(pnl, dep)), Primes(pnl, dep));
    }
  }

  /** The ledger's sign convention: premiums in, charges out. */
  ghost predicate Conventional(pnl: seq<Entry>) {
    forall e :: e in pnl ==> (e.category == Prime ==> e.amount > 0) && (e.IsCharge() ==> e.amount <= 0)
  }

  lemma {:induction false} PrimesOf(pnl: seq<Entry>, dep: Str)
    requires Conventional(pnl)
    ensures if HasPrime(pnl, dep) then Primes(pnl, dep) > 0 else Primes(pnl, dep) == 0
  {
    if pnl != [] {
      var before, e := pnl[..|pnl| - 1], pnl[|pnl| - 1];
      assert forall x :: x in before ==> x in pnl;
      PrimesOf(before, dep);
      EntryAppears(pnl);
      assert e in pnl;
    }
  }

  /**
    Under the sign convention the snapshot's ratios are the view's, on every department the snapshot lists; the view
    lists further departments only with NULL.
   */
  lemma RatiosMatchTheView(pnl: seq<Entry>, dep: Str)
    requires Conventional(pnl)
    ensures SnapshotRatio(pnl, dep) == ViewRatio(pnl, dep)
    ensures !HasPrime(pnl, dep) ==> ViewRatio(pnl, dep) == None
    ensures HasPrime(pnl, dep) ==> ViewRatio(pnl, dep).Some?
  {
    PrimesOf(pnl, dep);
    FiltersAgree(pnl, dep);
    RatiosAgreeExactly(pnl, dep);
  }
}
