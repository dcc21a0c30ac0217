/**
  Seeding the demonstration portfolio: claims rescaled to a target total, and the ledger rows written for them.
  Amounts are in cents; random draws are a function of the row.
 */
module Seeding {
  import opened Json
  import opened Domain

  // ---------- rounding ----------

  /** round: to the nearest whole cent, halves to even. */
  function Round(x: real): (r: int)
    ensures x - 0.5 <= r as real <= x + 0.5
    ensures r as real == x - 0.5 || r as real == x + 0.5 ==> r % 2 == 0
  {
    var down := x.Floor;
    var rest := x - down as real;
    if rest < 0.5 || (rest == 0.5 && down % 2 == 0) then down else down + 1
  }

  lemma RoundKeepsOrder(n: int, x: real)
    ensures n as real <= x ==> n <= Round(x)
    ensures x <= n as real ==> Round(x) <= n
  {
  }

  // ---------- claims and what they post ----------

  datatype Sinistre = Sinistre(contratId: nat, status: ClaimStatus, estimate: int, settled: int)

  datatype Contrat = Contrat(prime: int)

  datatype Category = Prime | Frais | Reglement | Provision

  datatype Department = Auto | Finance | SinistresContentieux

  datatype PnlRow = PnlRow(department: Department, category: Category, amount: int)

  function CategoryOf(status: ClaimStatus): Option<Category> {
    match status
    case Regle => Some(Reglement)
    case Ouvert => Some(Provision)
    case EnCours => Some(Provision)
    case Contentieux => Some(Provision)
    case _ => None
  }

  function PostedClaimAmount(s: Sinistre): int {
    match CategoryOf(s.status)
    case None => 0
    case Some(c) => if c == Reglement then s.settled else s.estimate
  }

  function PostedSum(ss: seq<Sinistre>): int {
    if ss == [] then 0 else PostedSum(ss[..|ss| - 1]) + PostedClaimAmount(ss[|ss| - 1])
  }

  // ---------- rescaling, as a function ----------

  /** A claim that posts a positive amount, and that amount. */
  datatype Posting = Posting(index: nat, amount: int)

  function Postings(ss: seq<Sinistre>): seq<Posting> {
    if ss == [] then []
    else
      var n := |ss| - 1;
      var before, m := Postings(ss[..n]), PostedClaimAmount(ss[n]);
      if m > 0 then before + [Posting(n, m)] else before
  }

  function Total(ps: seq<Posting>): int {
    if ps == [] then 0 else Total(ps[..|ps| - 1]) + ps[|ps| - 1].amount
  }

  function Sum(xs: seq<int>): int {
    if xs == [] then 0 else Sum(xs[..|xs| - 1]) + xs[|xs| - 1]
  }

  /** The unrounded share of an amount when `total` is scaled to `target`. */
  function Proportion(total: int, target: int): int -> real
    requires total > 0
  {
    amount => amount as real * (target as real / total as real)
  }

  function RoundedShares(ps: seq<Posting>, share: int -> real): (r: seq<int>)
    ensures |r| == |ps| && forall k :: 0 <= k < |ps| ==> r[k] == Round(share(ps[k].amount))
  {
    seq(|ps|, k requires 0 <= k < |ps| => Round(share(ps[k].amount)))
  }

  /** The new posted amounts: rounded shares, but for the last, which takes the residue. */
  function News(ps: seq<Posting>, share: int -> real, target: int): (r: seq<int>)
    requires ps != []
    ensures |r| == |ps|
  {
    var rounded := RoundedShares(ps, share);
    var n := |ps| - 1;
    rounded[n := rounded[n] + (target - Sum(rounded))]
  }

  type Draw = u: real | 0.85 <= u <= 1.0 witness 1.0

  /** The estimate of row i when its settlement is p: the settlement over the drawn ratio. */
  function GrossUp(draws: nat -> Draw): (nat, int) -> int {
    (i: nat, p: int) => Round(p as real / draws(i))
  }

  /** A claim made to post p: a settled one gets a settlement and an estimate, any other an estimate only. */
  function Rescaled(s: Sinistre, p: int, estimate: int): Sinistre {
    if s.status == Regle then s.(settled := p, estimate := estimate) else s.(estimate := p, settled := 0)
  }

  predicate Indexes(ps: seq<Posting>, n: nat) { forall k :: 0 <= k < |ps| ==> ps[k].index < n }

  /** The claims once the first n postings have got their new amounts. */
  function Apply(ss: seq<Sinistre>, ps: seq<Posting>, news: seq<int>, gross: (nat, int) -> int, n: nat): (r: seq<Sinistre>)
    requires n <= |ps| == |news| && Indexes(ps, |ss|)
    ensures |r| == |ss|
  {
    if n == 0 then ss
    else
      var before := Apply(ss, ps, news, gross, n - 1);
      var i, p := ps[n - 1].index, news[n - 1];
      before[i := Rescaled(before[i], p, gross(i, p))]
  }

  /** Postings that name rows of ss, each once and in order, with the positive amount it posts. */
  predicate PostingsOf(ss: seq<Sinistre>, ps: seq<Posting>) {
    && Indexes(ps, |ss|)
    && (forall k :: 0 <= k < |ps| ==> ps[k].amount == PostedClaimAmount(ss[ps[k].index]) > 0)
    && (forall j, k :: 0 <= j < k < |ps| ==> ps[j].index < ps[k].index)
  }

  lemma {:induction false} PostingsAreRows(ss: seq<Sinistre>)
    ensures PostingsOf(ss, Postings(ss))
    ensures if Postings(ss) == [] then Total(Postings(ss)) == 0 else Total(Postings(ss)) > 0
  {
    if ss != [] {
      var n := |ss| - 1;
      PostingsAreRows(ss[..n]);
      PostingsExtend(ss, Postings(ss[..n]));
    }
  }

  lemma {:induction false} PostingsExtend(ss: seq<Sinistre>, ps: seq<Posting>)
    requires ss != [] && PostingsOf(ss[..|ss| - 1], ps)
    ensures PostingsOf(ss, ps)
    ensures var n := |ss| - 1;
      PostedClaimAmount(ss[n]) > 0 ==>
        && PostingsOf(ss, ps + [Posting(n, PostedClaimAmount(ss[n]))])
        && Total(ps + [Posting(n, PostedClaimAmount(ss[n]))]) == Total(ps) + PostedClaimAmount(ss[n])
  {
    var n := |ss| - 1;
    var next := ps + [Posting(n, PostedClaimAmount(ss[n]))];
    assert next[..|ps|] == ps;
    assert forall k :: 0 <= k < |ps| ==> ss[..n][ps[k].index] == ss[ps[k].index];
  }

  /** What rescale_sinistres makes of the claims. */
  function RescaledAll(ss: seq<Sinistre>, target: int, draws: nat -> Draw): (r: seq<Sinistre>)
    ensures |r| == |ss|
  {
    PostingsAreRows(ss);
    var ps := Postings(ss);
    if ps == [] then ss else Apply(ss, ps, News(ps, Proportion(Total(ps), target), target), GrossUp(draws), |ps|)
  }

  // ---------- rescaling, in place ----------

  method CollectPostings(sinistres: array<Sinistre>) returns (posted: seq<Posting>, rawTotal: int)
    ensures posted == Postings(sinistres[..]) && rawTotal == Total(posted)
  {
    posted, rawTotal := [], 0;
    for i := 0 to sinistres.Length
      invariant posted == Postings(sinistres[..i]) && rawTotal == Total(posted)
    {
      var m := PostedClaimAmount(sinistres[i]);
      assert sinistres[..i + 1][..i] == sinistres[..i];
      if m > 0 {
        assert (posted + [Posting(i, m)])[..|posted|] == posted;
        posted, rawTotal := posted + [Posting(i, m)], rawTotal + m;
      }
    }
    assert sinistres[..sinistres.Length] == sinistres[..];
  }

  method ComputeNews(posted: seq<Posting>, share: int -> real, target: int) returns (news: seq<int>)
    requires posted != []
    ensures news == News(posted, share, target)
  {
    var sum := 0;
    news := [];
    for k := 0 to |posted|
      invariant |news| == k && sum == Sum(news)
      invariant forall j :: 0 <= j < k ==> news[j] == Round(share(posted[j].amount))
    {
      var rounded := Round(share(posted[k].amount));
      assert (news + [rounded])[..k] == news;
      news, sum := news + [rounded], sum + rounded;
    }
    assert news == RoundedShares(posted, share);
    // The last amount takes whatever rounding left over.
    news := news[|news| - 1 := news[|news| - 1] + (target - sum)];
  }

  method RescaleSinistres(sinistres: array<Sinistre>, target: int, draws: nat -> Draw)
    modifies sinistres
    ensures sinistres[..] == RescaledAll(old(sinistres[..]), target, draws)
  {
    ghost var ss := sinistres[..];
    PostingsAreRows(ss);
    var posted, rawTotal := CollectPostings(sinistres);
    if rawTotal <= 0 || |posted| == 0 {
      return;
    }
    var news := ComputeNews(posted, Proportion(rawTotal, target), target);
    UpdateRows(sinistres, posted, news, GrossUp(draws));
  }

  method UpdateRows(sinistres: array<Sinistre>, posted: seq<Posting>, news: seq<int>, gross: (nat, int) -> int)
    requires |posted| == |news| && Indexes(posted, sinistres.Length)
    modifies sinistres
    ensures sinistres[..] == Apply(old(sinistres[..]), posted, news, gross, |posted|)
  {
    for k := 0 to |posted|
      invariant sinistres[..] == Apply(old(sinistres[..]), posted, news, gross, k)
    {
      UpdateRow(sinistres, posted[k].index, news[k], gross);
    }
  }

  method UpdateRow(sinistres: array<Sinistre>, i: nat, p: int, gross: (nat, int) -> int)
    requires i < sinistres.Length
    modifies sinistres
    ensures sinistres[..] == old(sinistres[..])[i := Rescaled(old(sinistres[i]), p, gross(i, p))]
  {
    if sinistres[i].status == Regle {
      sinistres[i] := sinistres[i].(settled := p, estimate := gross(i, p));
    } else {
      sinistres[i] := sinistres[i].(estimate := p, settled := 0);
    }
  }

  // ---------- the sum is exact ----------

  lemma {:induction false} UpdateMovesSum(ss: seq<Sinistre>, i: nat, s: Sinistre)
    requires i < |ss|
    ensures PostedSum(ss[i := s]) == PostedSum(ss) - PostedClaimAmount(ss[i]) + PostedClaimAmount(s)
  {
    var n := |ss| - 1;
    if i < n {
      UpdateMovesSum(ss[..n], i, s);
      assert ss[i := s][..n] == ss[..n][i := s];
    } else {
      assert ss[i := s][..n] == ss[..n];
    }
  }

  /** montant_estime >= montant_regle, and neither is negative. */
  predicate Coherent(s: Sinistre) { 0 <= s.settled <= s.estimate }

  lemma RescaledPosts(s: Sinistre, p: int, estimate: int)
    requires PostedClaimAmount(s) > 0
    ensures PostedClaimAmount(Rescaled(s, p, estimate)) == p
    ensures 0 <= p <= estimate ==> Coherent(Rescaled(s, p, estimate))
  {
  }

  /** Row i after n postings: its own posting's new amount, or what it was. */
  ghost predicate RowApplied(ss: seq<Sinistre>, ps: seq<Posting>, news: seq<int>, gross: (nat, int) -> int, n: nat, i: nat)
    requires n <= |ps| == |news| && Indexes(ps, |ss|) && i < |ss|
  {
    var after := Apply(ss, ps, news, gross, n);
    && (forall k :: 0 <= k < n && ps[k].index == i ==> after[i] == Rescaled(ss[i], news[k], gross(i, news[k])))
    && ((forall k :: 0 <= k < n ==> ps[k].index != i) ==> after[i] == ss[i])
  }

  lemma {:induction false} ApplyReaches(ss: seq<Sinistre>, ps: seq<Posting>, news: seq<int>, gross: (nat, int) -> int, n: nat, i: nat)
    requires PostingsOf(ss, ps) && n <= |ps| == |news| && i < |ss|
    ensures RowApplied(ss, ps, news, gross, n, i)
  {
    if n > 0 {
      ApplyReaches(ss, ps, news, gross, n - 1, i);
    }
  }

  /** Each posting moves the sum by the difference it makes to its row. */
  lemma {:induction false} ApplyMovesSum(ss: seq<Sinistre>, ps: seq<Posting>, news: seq<int>, gross: (nat, int) -> int, n: nat)
    requires PostingsOf(ss, ps) && n <= |ps| == |news|
    ensures PostedSum(Apply(ss, ps, news, gross, n)) == PostedSum(ss) - Total(ps[..n]) + Sum(news[..n])
  {
    if n > 0 {
      ApplyMovesSum(ss, ps, news, gross, n - 1);
      var i, p := ps[n - 1].index, news[n - 1];
      ApplyReaches(ss, ps, news, gross, n - 1, i);
      RowMovesSum(Apply(ss, ps, news, gross, n - 1), i, p, gross(i, p));
      PrefixSums(ps, news, n);
    }
  }

  lemma PrefixSums(ps: seq<Posting>, news: seq<int>, n: nat)
    requires 0 < n <= |ps| == |news|
    ensures Total(ps[..n]) == Total(ps[..n - 1]) + ps[n - 1].amount
    ensures Sum(news[..n]) == Sum(news[..n - 1]) + news[n - 1]
  {
    assert ps[..n][..n - 1] == ps[..n - 1] && news[..n][..n - 1] == news[..n - 1];
  }

  lemma {:induction false} RowMovesSum(ss: seq<Sinistre>, i: nat, p: int, estimate: int)
    requires i < |ss| && PostedClaimAmount(ss[i]) > 0
    ensures PostedSum(ss[i := Rescaled(ss[i], p, estimate)]) == PostedSum(ss) - PostedClaimAmount(ss[i]) + p
  {
    RescaledPosts(ss[i], p, estimate);
    UpdateMovesSum(ss, i, Rescaled(ss[i], p, estimate));
  }

  predicate NonNegative(ss: seq<Sinistre>) { forall i :: 0 <= i < |ss| ==> ss[i].estimate >= 0 && ss[i].settled >= 0 }

  lemma TotalOfOneMore(ps: seq<Posting>, p: Posting)
    ensures Total(ps + [p]) == Total(ps) + p.amount
  {
    assert (ps + [p])[..|ps|] == ps;
  }

  /** Rows that post nothing positive post nothing. */
  lemma {:induction false} PostingsCarryTheSum(ss: seq<Sinistre>)
    requires NonNegative(ss)
    ensures PostedSum(ss) == Total(Postings(ss))
  {
    if ss != [] {
      var n := |ss| - 1;
      PostingsCarryTheSum(ss[..n]);
      TotalOfOneMore(Postings(ss[..n]), Posting(n, PostedClaimAmount(ss[n])));
    }
  }

  lemma {:induction false} SumOfUpdate(xs: seq<int>, y: int)
    requires xs != []
    ensures Sum(xs[|xs| - 1 := y]) == Sum(xs) - xs[|xs| - 1] + y
  {
    assert xs[|xs| - 1 := y][..|xs| - 1] == xs[..|xs| - 1];
  }

  lemma {:induction false} NewsSum(ps: seq<Posting>, share: int -> real, target: int)
    requires ps != []
    ensures Sum(News(ps, share, target)) == target
    ensures News(ps, share, target)[|ps| - 1] == target - Sum(RoundedShares(ps[..|ps| - 1], share))
  {
    var rounded := RoundedShares(ps, share);
    var n := |ps| - 1;
    SumOfUpdate(rounded, rounded[n] + (target - Sum(rounded)));
    assert rounded[..n] == RoundedShares(ps[..n], share);
  }

  lemma {:induction false} AppliedSum(ss: seq<Sinistre>, target: int, share: int -> real, gross: (nat, int) -> int)
    requires NonNegative(ss) && PostingsOf(ss, Postings(ss)) && Postings(ss) != []
    ensures var ps := Postings(ss); PostedSum(Apply(ss, ps, News(ps, share, target), gross, |ps|)) == target
  {
    var ps := Postings(ss);
    var news := News(ps, share, target);
    NewsSum(ps, share, target);
    PostingsCarryTheSum(ss);
    ApplyMovesSum(ss, ps, news, gross, |ps|);
    assert ps[..|ps|] == ps;
    assert news[..|ps|] == news;
  }

  /** The posted amounts sum to the target, to the cent. */
  lemma {:induction false} RescalingIsExact(ss: seq<Sinistre>, target: int, draws: nat -> Draw)
    requires NonNegative(ss) && Postings(ss) != []
    ensures PostedSum(RescaledAll(ss, target, draws)) == target
  {
    PostingsAreRows(ss);
    AppliedSum(ss, target, Proportion(Total(Postings(ss)), target), GrossUp(draws));
  }

  // ---------- the residue is small ----------

  function ShareSum(ps: seq<Posting>, share: int -> real): real {
    if ps == [] then 0.0 else ShareSum(ps[..|ps| - 1], share) + share(ps[|ps| - 1].amount)
  }

  /** Each rounding adds at most half a cent of drift. */
  lemma {:induction false} RoundingDrifts(ps: seq<Posting>, share: int -> real)
    ensures Abs(Sum(RoundedShares(ps, share)) as real - ShareSum(ps, share)) <= |ps| as real / 2.0
  {
    if ps != [] {
      var n := |ps| - 1;
      RoundingDrifts(ps[..n], share);
      assert RoundedShares(ps, share)[..n] == RoundedShares(ps[..n], share);
    }
  }

  /** Every new amount is within half a cent of its exact share, but the last, which is within (n-1)/2 cents of its. */
  lemma {:induction false} ResidueIsSmall(ps: seq<Posting>, share: int -> real, target: int)
    requires ps != [] && ShareSum(ps, share) == target as real
    ensures var news, last := News(ps, share, target), |ps| - 1;
      && (forall k :: 0 <= k < last ==> Abs(news[k] as real - share(ps[k].amount)) <= 0.5)
      && Abs(news[last] as real - share(ps[last].amount)) <= last as real / 2.0
  {
    NewsSum(ps, share, target);
    RoundingDrifts(ps[..|ps| - 1], share);
  }

  lemma {:induction false} SharesAddUp(ps: seq<Posting>, total: int, target: int)
    requires total > 0
    ensures ShareSum(ps, Proportion(total, target)) == Total(ps) as real * (target as real / total as real)
  {
    if ps != [] {
      var n := |ps| - 1;
      SharesAddUp(ps[..n], total, target);
      Distribute(Total(ps[..n]) as real, ps[n].amount as real, target as real / total as real);
    }
  }

  lemma Distribute(a: real, b: real, f: real)
    ensures (a + b) * f == a * f + b * f
  {
  }

  lemma SharesAreWhole(ps: seq<Posting>, target: int)
    requires Total(ps) > 0
    ensures ShareSum(ps, Proportion(Total(ps), target)) == target as real
  {
    SharesAddUp(ps, Total(ps), target);
  }

  lemma {:induction false} AppliedPosts(ss: seq<Sinistre>, ps: seq<Posting>, news: seq<int>, gross: (nat, int) -> int, k: nat)
    requires PostingsOf(ss, ps) && k < |ps| == |news|
    ensures PostedClaimAmount(Apply(ss, ps, news, gross, |ps|)[ps[k].index]) == news[k]
  {
    var i := ps[k].index;
    ApplyReaches(ss, ps, news, gross, |ps|, i);
    RescaledPosts(ss[i], news[k], gross(i, news[k]));
  }

  /** Each posting row of `after` is near its share: within half a cent, or (n-1)/2 cents for the last. */
  predicate NearShares(ps: seq<Posting>, after: seq<Sinistre>, share: int -> real)
    requires Indexes(ps, |after|)
  {
    forall k :: 0 <= k < |ps| ==>
      Abs(PostedClaimAmount(after[ps[k].index]) as real - share(ps[k].amount)) <= if k < |ps| - 1 then 0.5 else (|ps| - 1) as real / 2.0
  }

  lemma {:induction false} AppliedNearShares(ss: seq<Sinistre>, ps: seq<Posting>, share: int -> real, gross: (nat, int) -> int, target: int)
    requires PostingsOf(ss, ps) && ps != [] && ShareSum(ps, share) == target as real
    ensures NearShares(ps, Apply(ss, ps, News(ps, share, target), gross, |ps|), share)
  {
    var news := News(ps, share, target);
    var after := Apply(ss, ps, news, gross, |ps|);
    ResidueIsSmall(ps, share, target);
    forall k | 0 <= k < |ps| ensures PostedClaimAmount(after[ps[k].index]) == news[k] {
      AppliedPosts(ss, ps, news, gross, k);
    }
  }

  /** After rescaling, every posting claim is near its proportional share of the target. */
  lemma {:induction false} RescaledNearShares(ss: seq<Sinistre>, target: int, draws: nat -> Draw)
    requires Postings(ss) != []
    ensures PostingsOf(ss, Postings(ss)) && Total(Postings(ss)) > 0
    ensures NearShares(Postings(ss), RescaledAll(ss, target, draws), Proportion(Total(Postings(ss)), target))
  {
    PostingsAreRows(ss);
    var ps := Postings(ss);
    SharesAreWhole(ps, target);
    AppliedNearShares(ss, ps, Proportion(Total(ps), target), GrossUp(draws), target);
  }

  // ---------- when no amount turns negative ----------

  predicate SharesRise(ps: seq<Posting>, share: int -> real) { forall k :: 0 <= k < |ps| ==> share(ps[k].amount) >= 0.0 }

  ghost predicate GrossesUp(gross: (nat, int) -> int) { forall i: nat, p :: p >= 0 ==> gross(i, p) >= p }

  /** Every posting row holds a coherent, non-negative amount. */
  predicate PostingsCoherent(ps: seq<Posting>, after: seq<Sinistre>)
    requires Indexes(ps, |after|)
  {
    forall k :: 0 <= k < |ps| ==> Coherent(after[ps[k].index]) && PostedClaimAmount(after[ps[k].index]) >= 0
  }

  lemma {:induction false} AppliedCoherent(ss: seq<Sinistre>, ps: seq<Posting>, share: int -> real, gross: (nat, int) -> int, target: int)
    requires PostingsOf(ss, ps) && ps != [] && SharesRise(ps, share) && GrossesUp(gross)
    ensures PostingsCoherent(ps, Apply(ss, ps, News(ps, share, target), gross, |ps|))
       <==> Sum(RoundedShares(ps[..|ps| - 1], share)) <= target
  {
    var n := |ps| - 1;
    var news := News(ps, share, target);
    var after := Apply(ss, ps, news, gross, |ps|);
    NewsSum(ps, share, target);
    forall k | 0 <= k < |ps|
      ensures PostedClaimAmount(after[ps[k].index]) == news[k]
      ensures news[k] >= 0 ==> Coherent(after[ps[k].index])
    {
      var i := ps[k].index;
      ApplyReaches(ss, ps, news, gross, |ps|, i);
      RescaledPosts(ss[i], news[k], gross(i, news[k]));
    }
    forall k | 0 <= k < n ensures news[k] >= 0 {
      RoundKeepsOrder(0, share(ps[k].amount));
    }
  }

  lemma ProportionRises(ps: seq<Posting>, total: int, target: int)
    requires total > 0 && target >= 0 && forall k :: 0 <= k < |ps| ==> ps[k].amount > 0
    ensures SharesRise(ps, Proportion(total, target))
  {
    var f := target as real / total as real;
    assert f >= 0.0;
    forall k | 0 <= k < |ps| ensures Proportion(total, target)(ps[k].amount) >= 0.0 {
      assert ps[k].amount as real * f >= 0.0;
    }
  }

  lemma GrossUpGrosses(draws: nat -> Draw)
    ensures GrossesUp(GrossUp(draws))
  {
    forall i: nat, p | p >= 0 ensures GrossUp(draws)(i, p) >= p {
      QuotientGrows(p as real, draws(i));
      RoundKeepsOrder(p, p as real / draws(i));
    }
  }

  lemma QuotientGrows(x: real, d: Draw)
    requires x >= 0.0
    ensures x / d >= x
  {
    var q := x / d;
    assert q * d == x && q >= 0.0;
    assert q * (1.0 - d) >= 0.0;
  }

  /** What the rows before the last take, rounded. */
  function RoundedBeforeLast(ps: seq<Posting>, target: int): int
    requires ps != [] && Total(ps) > 0
  {
    Sum(RoundedShares(ps[..|ps| - 1], Proportion(Total(ps), target)))
  }

  /** Every posting row is coherent after rescaling exactly when the rows before the last do not round above the target. */
  lemma {:induction false} CoherentExactly(ss: seq<Sinistre>, target: int, draws: nat -> Draw)
    requires Postings(ss) != [] && target >= 0
    ensures PostingsOf(ss, Postings(ss)) && Total(Postings(ss)) > 0
    ensures PostingsCoherent(Postings(ss), RescaledAll(ss, target, draws)) <==> RoundedBeforeLast(Postings(ss), target) <= target
  {
    PostingsAreRows(ss);
    var ps := Postings(ss);
    ProportionRises(ps, Total(ps), target);
    GrossUpGrosses(draws);
    AppliedCoherent(ss, ps, Proportion(Total(ps), target), GrossUp(draws), target);
  }

  /** A last share of at least (n-1)/2 cents is enough. */
  lemma {:induction false} LargeLastShareSuffices(ss: seq<Sinistre>, target: int, draws: nat -> Draw)
    requires Postings(ss) != [] && target >= 0 && Total(Postings(ss)) > 0
    requires var ps := Postings(ss); Proportion(Total(ps), target)(ps[|ps| - 1].amount) >= (|ps| - 1) as real / 2.0
    ensures PostingsOf(ss, Postings(ss)) && PostingsCoherent(Postings(ss), RescaledAll(ss, target, draws))
  {
    var ps := Postings(ss);
    SharesAreWhole(ps, target);
    LargeLastShareLeavesEnough(ps, Proportion(Total(ps), target), target);
    CoherentExactly(ss, target, draws);
  }

  lemma {:induction false} LargeLastShareLeavesEnough(ps: seq<Posting>, share: int -> real, target: int)
    requires ps != [] && ShareSum(ps, share) == target as real && share(ps[|ps| - 1].amount) >= (|ps| - 1) as real / 2.0
    ensures Sum(RoundedShares(ps[..|ps| - 1], share)) <= target
  {
    RoundingDrifts(ps[..|ps| - 1], share);
  }

  /** Nothing but reserves of one cent. */
  predicate OneCentReserves(ss: seq<Sinistre>) { forall i :: 0 <= i < |ss| ==> ss[i].status == Ouvert && ss[i].estimate == 1 }

  lemma {:induction false} OneCentPostings(ss: seq<Sinistre>)
    requires OneCentReserves(ss)
    ensures var ps := Postings(ss);
      |ps| == |ss| && Total(ps) == |ss| && forall k :: 0 <= k < |ps| ==> ps[k] == Posting(k, 1)
  {
    if ss != [] {
      OneCentPostings(ss[..|ss| - 1]);
      assert Postings(ss)[..|ss| - 1] == Postings(ss[..|ss| - 1]);
    }
  }

  lemma {:induction false} SumOfOnes(xs: seq<int>)
    requires forall k :: 0 <= k < |xs| ==> xs[k] == 1
    ensures Sum(xs) == |xs|
  {
    if xs != [] {
      SumOfOnes(xs[..|xs| - 1]);
    }
  }

  lemma QuotientIs(x: real, y: real, d: real)
    requires d > 0.0 && y * d == x
    ensures x / d == y
  {
  }

  lemma QuotientGrowsWith(x: real, y: real, d: real)
    requires x <= y && d > 0.0
    ensures x / d <= y / d && (x < y ==> x / d < y / d)
  {
  }

  lemma OneCentShare(n: int, target: int)
    requires n > 0 && 2 * target > n >= target
    ensures Round(Proportion(n, target)(1)) == 1
  {
    var d := n as real;
    QuotientIs(0.5 * d, 0.5, d);
    QuotientIs(d, 1.0, d);
    QuotientGrowsWith(0.5 * d, target as real, d);
    QuotientGrowsWith(target as real, d, d);
    RoundsUp(target as real / d);
  }

  lemma RoundsUp(f: real)
    requires 0.5 < f <= 1.0
    ensures Round(1 as real * f) == 1
  {
  }

  lemma {:induction false} OneCentApplied(ss: seq<Sinistre>, ps: seq<Posting>, share: int -> real, gross: (nat, int) -> int, target: int)
    requires PostingsOf(ss, ps) && ps != [] && Round(share(1)) == 1 && forall k :: 0 <= k < |ps| ==> ps[k] == Posting(k, 1)
    ensures PostedClaimAmount(Apply(ss, ps, News(ps, share, target), gross, |ps|)[|ps| - 1]) == target - (|ps| - 1)
  {
    var n, news := |ps| - 1, News(ps, share, target);
    SumOfOnes(RoundedShares(ps[..n], share));
    NewsSum(ps, share, target);
    ApplyReaches(ss, ps, news, gross, |ps|, n);
    RescaledPosts(ss[n], news[n], gross(n, news[n]));
  }

  /**
    The bound on the last share matters: n reserves of one cent rescaled to a target above n/2 and below n - 1 cents
    each round up to one cent, and leave the last with target - (n - 1), which is negative. Five and three, for example.
   */
  lemma {:induction false} ResidueCanTurnNegative(ss: seq<Sinistre>, target: int, draws: nat -> Draw)
    requires OneCentReserves(ss) && ss != [] && 2 * target > |ss| && target < |ss| - 1
    ensures PostedClaimAmount(RescaledAll(ss, target, draws)[|ss| - 1]) == target - (|ss| - 1) < 0
  {
    OneCentPostings(ss);
    PostingsAreRows(ss);
    var ps := Postings(ss);
    OneCentShare(Total(ps), target);
    OneCentApplied(ss, ps, Proportion(Total(ps), target), GrossUp(draws), target);
    var after := RescaledAll(ss, target, draws);
    assert after == Apply(ss, ps, News(ps, Proportion(Total(ps), target), target), GrossUp(draws), |ps|);
    assert PostedClaimAmount(after[|ps| - 1]) == target - (|ps| - 1);
  }

  // ---------- the ledger rows ----------

  function Premiums(contrats: seq<Contrat>): int {
    if contrats == [] then 0 else Premiums(contrats[..|contrats| - 1]) + contrats[|contrats| - 1].prime
  }

  /** The fee on each premium, a tenth of it rounded to the cent. */
  function Fee(c: Contrat): int { Round(c.prime as real * 0.10) }

  function Fees(contrats: seq<Contrat>): int {
    if contrats == [] then 0 else Fees(contrats[..|contrats| - 1]) + Fee(contrats[|contrats| - 1])
  }

  function ContratRows(contrats: seq<Contrat>): seq<PnlRow> {
    if contrats == [] then []
    else
      var c := contrats[|contrats| - 1];
      ContratRows(contrats[..|contrats| - 1]) + [PnlRow(Auto, Prime, c.prime)] + [PnlRow(Department.Finance, Frais, -Fee(c))]
  }

  function SinistreRows(ss: seq<Sinistre>): seq<PnlRow> {
    if ss == [] then []
    else
      var before, s := SinistreRows(ss[..|ss| - 1]), ss[|ss| - 1];
      if PostedClaimAmount(s) > 0
      then before + [PnlRow(SinistresContentieux, CategoryOf(s.status).value, -PostedClaimAmount(s))] else before
  }

  /** The rows of seed_pnl: two per contract, one per claim that posts a positive amount. */
  method SeedPnl(contrats: seq<Contrat>, sinistres: array<Sinistre>)
    returns (ledger: seq<PnlRow>, nRows: nat, totalPrimes: int, totalSinistres: int)
    ensures ledger == ContratRows(contrats) + SinistreRows(sinistres[..]) && nRows == |ledger|
    ensures totalPrimes == Premiums(contrats) && totalSinistres == Total(Postings(sinistres[..]))
  {
    ledger, nRows, totalPrimes := [], 0, 0;
    for i := 0 to |contrats|
      invariant ledger == ContratRows(contrats[..i]) && nRows == |ledger| && totalPrimes == Premiums(contrats[..i])
    {
      var c := contrats[i];
      assert contrats[..i + 1][..i] == contrats[..i];
      ledger := ledger + [PnlRow(Auto, Prime, c.prime)];
      ledger := ledger + [PnlRow(Department.Finance, Frais, -Fee(c))];
      totalPrimes, nRows := totalPrimes + c.prime, nRows + 2;
    }
    assert contrats[..|contrats|] == contrats;
    totalSinistres := 0;
    ghost var premiumRows := ledger;
    for i := 0 to sinistres.Length
      invariant ledger == premiumRows + SinistreRows(sinistres[..i]) && nRows == |ledger|
      invariant totalSinistres == Total(Postings(sinistres[..i]))
    {
      var s := sinistres[i];
      var m := PostedClaimAmount(s);
      ghost var ps := Postings(sinistres[..i]);
      assert sinistres[..i + 1][..i] == sinistres[..i];
      if m > 0 {
        assert (ps + [Posting(i, m)])[..|ps|] == ps;
        ledger := ledger + [PnlRow(SinistresContentieux, CategoryOf(s.status).value, -m)];
        totalSinistres, nRows := totalSinistres + m, nRows + 1;
      }
    }
    assert sinistres[..sinistres.Length] == sinistres[..];
  }

  function Amounts(rows: seq<PnlRow>): int {
    if rows == [] then 0 else Amounts(rows[..|rows| - 1]) + rows[|rows| - 1].amount
  }

  lemma {:induction false} AmountsAdd(a: seq<PnlRow>, b: seq<PnlRow>)
    ensures Amounts(a + b) == Amounts(a) + Amounts(b)
  {
    if b == [] {
      assert a + b == a;
    } else {
      AmountsAdd(a, b[..|b| - 1]);
      assert (a + b)[..|a + b| - 1] == a + b[..|b| - 1];
    }
  }

  lemma {:induction false} ContratRowsSum(contrats: seq<Contrat>)
    ensures Amounts(ContratRows(contrats)) == Premiums(contrats) - Fees(contrats)
    ensures |ContratRows(contrats)| == 2 * |contrats|
  {
    if contrats != [] {
      var before, c := contrats[..|contrats| - 1], contrats[|contrats| - 1];
      ContratRowsSum(before);
      var rows := ContratRows(before);
      assert (rows + [PnlRow(Auto, Prime, c.prime)])[..|rows|] == rows;
      var all := ContratRows(contrats);
      assert all[..|all| - 1] == rows + [PnlRow(Auto, Prime, c.prime)];
    }
  }

  lemma {:induction false} SinistreRowsSum(ss: seq<Sinistre>)
    ensures Amounts(SinistreRows(ss)) == -Total(Postings(ss))
    ensures |SinistreRows(ss)| == |Postings(ss)|
  {
    if ss != [] {
      SinistreRowsSum(ss[..|ss| - 1]);
      if PostedClaimAmount(ss[|ss| - 1]) > 0 {
        var rows, ps := SinistreRows(ss), Postings(ss);
        assert rows[..|rows| - 1] == SinistreRows(ss[..|ss| - 1]) && ps[..|ps| - 1] == Postings(ss[..|ss| - 1]);
      }
    }
  }

  /** What the seeded ledger sums to, and how many rows it has. */
  lemma LedgerSums(contrats: seq<Contrat>, ss: seq<Sinistre>)
    ensures var ledger := ContratRows(contrats) + SinistreRows(ss);
      && |ledger| == 2 * |contrats| + |Postings(ss)|
      && Amounts(ledger) == Premiums(contrats) - Fees(contrats) - Total(Postings(ss))
  {
    AmountsAdd(ContratRows(contrats), SinistreRows(ss));
    ContratRowsSum(contrats);
    SinistreRowsSum(ss);
  }

  // ---------- what is booked where ----------

  /** The rows of one department and category, summed. */
  function Booked(rows: seq<PnlRow>, department: Department, category: Category): int {
    if rows == [] then 0
    else
      var n := |rows| - 1;
      Booked(rows[..n], department, category)
        + if rows[n].department == department && rows[n].category == category then rows[n].amount else 0
  }

  /** The settlements of settled claims, and the estimates of those open, in progress or disputed, when positive. */
  function Settlements(ss: seq<Sinistre>): int {
    if ss == [] then 0
    else
      var n := |ss| - 1;
      Settlements(ss[..n]) + SettlementOf(ss[n])
  }

  function Reserves(ss: seq<Sinistre>): int {
    if ss == [] then 0
    else
      var n := |ss| - 1;
      Reserves(ss[..n]) + ReserveOf(ss[n])
  }

  lemma {:induction false} BookedBoth(a: seq<PnlRow>, b: seq<PnlRow>, department: Department, category: Category)
    ensures Booked(a + b, department, category) == Booked(a, department, category) + Booked(b, department, category)
  {
    if b == [] {
      assert a + b == a;
    } else {
      BookedBoth(a, b[..|b| - 1], department, category);
      assert (a + b)[..|a + b| - 1] == a + b[..|b| - 1];
    }
  }

  lemma BookedOne(row: PnlRow, department: Department, category: Category)
    ensures Booked([row], department, category) == if row.department == department && row.category == category then row.amount else 0
  {
    assert [row][..0] == [];
  }

  /** Premiums are booked as 'prime' under auto, fees as 'frais' under finance. */
  lemma {:induction false} ContratsBooked(contrats: seq<Contrat>, department: Department, category: Category)
    ensures Booked(ContratRows(contrats), department, category)
         == if department == Auto && category == Prime then Premiums(contrats)
            else if department == Department.Finance && category == Frais then -Fees(contrats) else 0
  {
    if contrats != [] {
      var before, c := contrats[..|contrats| - 1], contrats[|contrats| - 1];
      ContratsBooked(before, department, category);
      BookedBoth(ContratRows(before) + [PnlRow(Auto, Prime, c.prime)], [PnlRow(Department.Finance, Frais, -Fee(c))], department, category);
      BookedBoth(ContratRows(before), [PnlRow(Auto, Prime, c.prime)], department, category);
      BookedOne(PnlRow(Auto, Prime, c.prime), department, category);
      BookedOne(PnlRow(Department.Finance, Frais, -Fee(c)), department, category);
    }
  }

  function SettlementOf(s: Sinistre): int { if s.status == Regle && s.settled > 0 then s.settled else 0 }

  function ReserveOf(s: Sinistre): int { if s.status in {Ouvert, EnCours, Contentieux} && s.estimate > 0 then s.estimate else 0 }

  lemma OneSinistreBooked(s: Sinistre, department: Department, category: Category)
    ensures PostedClaimAmount(s) <= 0 ==> SettlementOf(s) == ReserveOf(s) == 0
    ensures PostedClaimAmount(s) > 0 ==>
      && PostedClaimAmount(s) == SettlementOf(s) + ReserveOf(s) && CategoryOf(s.status).Some?
      && Booked([PnlRow(SinistresContentieux, CategoryOf(s.status).value, -PostedClaimAmount(s))], department, category)
         == if department == SinistresContentieux && category == Reglement then -SettlementOf(s)
            else if department == SinistresContentieux && category == Provision then -ReserveOf(s) else 0
  {
    if PostedClaimAmount(s) > 0 {
      BookedOne(PnlRow(SinistresContentieux, CategoryOf(s.status).value, -PostedClaimAmount(s)), department, category);
    }
  }

  /** What claims book under a department and category. */
  function ClaimsBooked(settlements: int, reserves: int, department: Department, category: Category): int {
    if department != SinistresContentieux then 0
    else if category == Reglement then -settlements else if category == Provision then -reserves else 0
  }

  /** The row a claim is booked as, if it posts anything. */
  predicate OneMoreRow(rows: seq<PnlRow>, s: Sinistre, after: seq<PnlRow>) {
    if PostedClaimAmount(s) <= 0 then after == rows
    else CategoryOf(s.status).Some? && after == rows + [PnlRow(SinistresContentieux, CategoryOf(s.status).value, -PostedClaimAmount(s))]
  }

  lemma LastSinistre(ss: seq<Sinistre>)
    requires ss != []
    ensures OneMoreRow(SinistreRows(ss[..|ss| - 1]), ss[|ss| - 1], SinistreRows(ss))
    ensures Settlements(ss) == Settlements(ss[..|ss| - 1]) + SettlementOf(ss[|ss| - 1])
    ensures Reserves(ss) == Reserves(ss[..|ss| - 1]) + ReserveOf(ss[|ss| - 1])
  {
  }

  lemma OneMoreBooked(rows: seq<PnlRow>, s: Sinistre, after: seq<PnlRow>, settlements: int, reserves: int, department: Department, category: Category)
    requires OneMoreRow(rows, s, after) && Booked(rows, department, category) == ClaimsBooked(settlements, reserves, department, category)
    ensures Booked(after, department, category)
         == ClaimsBooked(settlements + SettlementOf(s), reserves + ReserveOf(s), department, category)
  {
    OneSinistreBooked(s, department, category);
    if PostedClaimAmount(s) > 0 {
      BookedBoth(rows, [PnlRow(SinistresContentieux, CategoryOf(s.status).value, -PostedClaimAmount(s))], department, category);
    }
  }

  /** Settlements are booked as 'reglement' and reserves as 'provision', both as expenses of the claims department. */
  lemma {:induction false} SinistresBooked(ss: seq<Sinistre>, department: Department, category: Category)
    ensures Booked(SinistreRows(ss), department, category) == ClaimsBooked(Settlements(ss), Reserves(ss), department, category)
  {
    if ss == [] {
      assert SinistreRows(ss) == [];
    } else {
      var before, s := ss[..|ss| - 1], ss[|ss| - 1];
      SinistresBooked(before, department, category);
      LastSinistre(ss);
      OneMoreBooked(SinistreRows(before), s, SinistreRows(ss), Settlements(before), Reserves(before), department, category);
    }
  }

  lemma {:induction false} PostingsSplit(ss: seq<Sinistre>)
    ensures Total(Postings(ss)) == Settlements(ss) + Reserves(ss)
  {
    if ss != [] {
      var before, s := ss[..|ss| - 1], ss[|ss| - 1];
      PostingsSplit(before);
      OneSinistreBooked(s, Auto, Prime);
      TotalOfOneMore(Postings(before), Posting(|ss| - 1, PostedClaimAmount(s)));
    }
  }

  /** What the seeded ledger books under each department and category, and nothing under any other. */
  lemma LedgerBooks(contrats: seq<Contrat>, ss: seq<Sinistre>)
    ensures var ledger := ContratRows(contrats) + SinistreRows(ss);
      && Booked(ledger, Auto, Prime) == Premiums(contrats)
      && Booked(ledger, Department.Finance, Frais) == -Fees(contrats)
      && Booked(ledger, SinistresContentieux, Reglement) == -Settlements(ss)
      && Booked(ledger, SinistresContentieux, Provision) == -Reserves(ss)
      && Total(Postings(ss)) == Settlements(ss) + Reserves(ss)
      && forall d, c :: (d, c) !in {(Auto, Prime), (Department.Finance, Frais), (SinistresContentieux, Reglement), (SinistresContentieux, Provision)}
           ==> Booked(ledger, d, c) == 0
  {
    forall d, c ensures Booked(ContratRows(contrats) + SinistreRows(ss), d, c)
                     == Booked(ContratRows(contrats), d, c) + Booked(SinistreRows(ss), d, c)
    {
      BookedBoth(ContratRows(contrats), SinistreRows(ss), d, c);
    }
    forall d, c ensures Booked(ContratRows(contrats), d, c)
                     == (if d == Auto && c == Prime then Premiums(contrats)
                         else if d == Department.Finance && c == Frais then -Fees(contrats) else 0)
    {
      ContratsBooked(contrats, d, c);
    }
    forall d, c ensures Booked(SinistreRows(ss), d, c)
                     == (if d == SinistresContentieux && c == Reglement then -Settlements(ss)
                         else if d == SinistresContentieux && c == Provision then -Reserves(ss) else 0)
    {
      SinistresBooked(ss, d, c);
    }
    PostingsSplit(ss);
  }

  /** The fees are a tenth of the premiums, to half a cent a contract. */
  lemma {:induction false} FeesAreATenth(contrats: seq<Contrat>)
    ensures Abs(Fees(contrats) as real - Premiums(contrats) as real * 0.10) <= |contrats| as real * 0.5
  {
    if contrats != [] {
      FeesAreATenth(contrats[..|contrats| - 1]);
    }
  }

  // ---------- the seeded claims ratio ----------

  /** 70% of the premiums, to the cent. */
  function Target(contrats: seq<Contrat>): int { Round(Premiums(contrats) as real * 0.70) }

  /** The claims are rescaled without turning any amount negative. */
  predicate InBounds(ss: seq<Sinistre>, target: int) {
    NonNegative(ss) && Postings(ss) != [] && Total(Postings(ss)) > 0 && target >= 0 && RoundedBeforeLast(Postings(ss), target) <= target
  }

  lemma {:induction false} RescaledStaysNonNegative(ss: seq<Sinistre>, target: int, draws: nat -> Draw)
    requires InBounds(ss, target)
    ensures NonNegative(RescaledAll(ss, target, draws))
  {
    CoherentExactly(ss, target, draws);
    var ps := Postings(ss);
    AppliedNonNegative(ss, ps, News(ps, Proportion(Total(ps), target), target), GrossUp(draws));
  }

  lemma {:induction false} AppliedNonNegative(ss: seq<Sinistre>, ps: seq<Posting>, news: seq<int>, gross: (nat, int) -> int)
    requires PostingsOf(ss, ps) && |ps| == |news| && NonNegative(ss) && PostingsCoherent(ps, Apply(ss, ps, news, gross, |ps|))
    ensures NonNegative(Apply(ss, ps, news, gross, |ps|))
  {
    var after := Apply(ss, ps, news, gross, |ps|);
    forall i | 0 <= i < |after| ensures after[i].estimate >= 0 && after[i].settled >= 0 {
      ApplyReaches(ss, ps, news, gross, |ps|, i);
      if k :| 0 <= k < |ps| && ps[k].index == i {
        assert Coherent(after[ps[k].index]);
      }
    }
  }

  lemma PostedIsTarget(ss: seq<Sinistre>, target: int, draws: nat -> Draw)
    requires InBounds(ss, target)
    ensures Total(Postings(RescaledAll(ss, target, draws))) == target
  {
    RescalingIsExact(ss, target, draws);
    RescaledStaysNonNegative(ss, target, draws);
    PostingsCarryTheSum(RescaledAll(ss, target, draws));
  }

  /** The seeding of the demonstration: rescale to 70% of the premiums, then write the ledger. */
  method SeedScaleMaison(contrats: seq<Contrat>, sinistres: array<Sinistre>, draws: nat -> Draw)
    returns (ledger: seq<PnlRow>, totalPrimes: int, totalSinistres: int)
    modifies sinistres
    ensures sinistres[..] == RescaledAll(old(sinistres[..]), Target(contrats), draws)
    ensures ledger == ContratRows(contrats) + SinistreRows(sinistres[..])
    ensures totalPrimes == Premiums(contrats) && totalSinistres == Total(Postings(sinistres[..]))
  {
    var target := Target(contrats);
    RescaleSinistres(sinistres, target, draws);
    var nRows;
    ledger, nRows, totalPrimes, totalSinistres := SeedPnl(contrats, sinistres);
  }

  lemma RatioIsClose(premiums: int, claims: int)
    requires premiums > 0 && claims == Round(premiums as real * 0.70)
    ensures Abs(claims as real / premiums as real - 0.70) <= 0.5 / premiums as real
  {
    QuotientNear(claims as real, premiums as real, 0.5);
  }

  lemma QuotientNear(c: real, p: real, h: real)
    requires p > 0.0 && p * 0.70 - h <= c <= p * 0.70 + h
    ensures 0.70 - h / p <= c / p <= 0.70 + h / p
  {
    var e := h / p;
    Distribute(0.70, e, p);
    Distribute(0.70, -e, p);
    QuotientIs(p * 0.70 + h, 0.70 + e, p);
    QuotientIs(p * 0.70 - h, 0.70 - e, p);
    QuotientGrowsWith(c, p * 0.70 + h, p);
    QuotientGrowsWith(p * 0.70 - h, c, p);
  }

  /** A category over all departments. */
  function BookedAs(rows: seq<PnlRow>, category: Category): int {
    Booked(rows, Auto, category) + Booked(rows, Department.Finance, category) + Booked(rows, SinistresContentieux, category)
  }

  /** The claims ratio of a ledger: what it books as settlements and reserves, over what it books as premiums. */
  function LedgerRatio(rows: seq<PnlRow>): real
    requires BookedAs(rows, Prime) > 0
  {
    Abs((BookedAs(rows, Reglement) + BookedAs(rows, Provision)) as real) / BookedAs(rows, Prime) as real
  }

  /** After an in-bounds rescale the claims ratio of the seeded ledger is within half a cent over the premiums of 70%. */
  lemma SeededRatio(contrats: seq<Contrat>, ss: seq<Sinistre>, draws: nat -> Draw)
    requires Premiums(contrats) > 0 && InBounds(ss, Target(contrats))
    ensures var ledger := ContratRows(contrats) + SinistreRows(RescaledAll(ss, Target(contrats), draws));
      && BookedAs(ledger, Prime) == Premiums(contrats)
      && Abs(LedgerRatio(ledger) - 0.70) <= 0.5 / Premiums(contrats) as real
  {
    var target := Target(contrats);
    var after := RescaledAll(ss, target, draws);
    PostedIsTarget(ss, target, draws);
    LedgerBooks(contrats, after);
    RatioOfBooks(ContratRows(contrats) + SinistreRows(after), Premiums(contrats), Settlements(after), Reserves(after));
    RatioIsClose(Premiums(contrats), target);
  }

  lemma RatioOfBooks(rows: seq<PnlRow>, premiums: int, settlements: int, reserves: int)
    requires BookedAs(rows, Prime) == premiums > 0
    requires BookedAs(rows, Reglement) == -settlements && BookedAs(rows, Provision) == -reserves && settlements + reserves >= 0
    ensures LedgerRatio(rows) == (settlements + reserves) as real / premiums as real
  {
  }

  /**
    By department no ratio of the seeded ledger is near that: premiums and claims are booked under different
    departments, so auto has premiums and no charges, and the claims department charges and no premiums.
   */
  lemma SeededRatiosByDepartment(contrats: seq<Contrat>, ss: seq<Sinistre>)
    ensures var ledger := ContratRows(contrats) + SinistreRows(ss);
      && Booked(ledger, Auto, Reglement) + Booked(ledger, Auto, Provision) == 0
      && Booked(ledger, SinistresContentieux, Prime) == 0 && Booked(ledger, Department.Finance, Prime) == 0
  {
    LedgerBooks(contrats, ss);
  }

  /** A rescaled row keeps its contract and status; it changes only if it posted, and then as its status says. */
  predicate RowRescaled(s: Sinistre, r: Sinistre, draw: Draw) {
    && r.status == s.status && r.contratId == s.contratId
    && (if s.status == Regle && s.settled > 0 then Abs(r.estimate as real - r.settled as real / draw) <= 0.5
        else if s.status in {Ouvert, EnCours, Contentieux} && s.estimate > 0 then r.settled == 0
        else r == s)
  }

  lemma PostingRowRescaled(s: Sinistre, p: int, draw: Draw)
    requires PostedClaimAmount(s) > 0
    ensures RowRescaled(s, Rescaled(s, p, Round(p as real / draw)), draw)
  {
  }

  lemma OtherRowKept(s: Sinistre, draw: Draw)
    requires PostedClaimAmount(s) <= 0
    ensures RowRescaled(s, s, draw)
  {
  }

  lemma {:induction false} AppliedRow(ss: seq<Sinistre>, ps: seq<Posting>, news: seq<int>, gross: (nat, int) -> int, i: nat, k: nat)
    requires PostingsOf(ss, ps) && |ps| == |news| && i < |ss|
    requires PostedClaimAmount(ss[i]) > 0 ==> k < |ps| && ps[k].index == i
    ensures Apply(ss, ps, news, gross, |ps|)[i]
         == if PostedClaimAmount(ss[i]) > 0 then Rescaled(ss[i], news[k], gross(i, news[k])) else ss[i]
  {
    ApplyReaches(ss, ps, news, gross, |ps|, i);
  }

  lemma {:induction false} RescaledRow(ss: seq<Sinistre>, target: int, draws: nat -> Draw, i: nat)
    requires i < |ss|
    ensures RowRescaled(ss[i], RescaledAll(ss, target, draws)[i], draws(i))
  {
    PostingsAreRows(ss);
    var ps := Postings(ss);
    var k := 0;
    if PostedClaimAmount(ss[i]) > 0 {
      k := PostingOfRow(ss, i);
      PostingRowRescaled(ss[i], News(ps, Proportion(Total(ps), target), target)[k], draws(i));
    } else {
      OtherRowKept(ss[i], draws(i));
    }
    if ps != [] {
      AppliedRow(ss, ps, News(ps, Proportion(Total(ps), target), target), GrossUp(draws), i, k);
    }
  }

  lemma {:induction false} PostingOfRow(ss: seq<Sinistre>, i: nat) returns (k: nat)
    requires i < |ss| && PostedClaimAmount(ss[i]) > 0
    ensures k < |Postings(ss)| && Postings(ss)[k].index == i
  {
    var n := |ss| - 1;
    if i < n {
      k := PostingOfRow(ss[..n], i);
    } else {
      k := |Postings(ss)| - 1;
    }
  }
}
