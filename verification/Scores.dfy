/** From claim scores to a confidence, focus-area scores and a verdict. */
module Scores {
  import opened Options

  // Unlisted is a category no focus area is kept for.
  datatype Category = Tokenomics | Performance | Consensus | Scientific | Unlisted

  datatype Claim = Claim(category: Category, score: real)

  datatype Verdict = InsufficientData | Fail | Conditional | Pass

  const PASS: int := 70
  const CONDITIONAL: int := 40
  const MIN_EVALUABLE_CLAIMS: nat := 3

  /** Rounds to the nearest whole number, halves up. */
  function Round(x: real): int {
    (x + 0.5).Floor
  }

  function Sum(xs: seq<real>): real {
    if xs == [] then 0.0 else Sum(xs[..|xs| - 1]) + xs[|xs| - 1]
  }

  /** The scores of the claims of a category, in order; of all claims for None. */
  function Of(claims: seq<Claim>, only: Option<Category>): seq<real> {
    if claims == [] then []
    else
      var last := claims[|claims| - 1];
      Of(claims[..|claims| - 1], only) + if only.None? || only.value == last.category then [last.score] else []
  }

  function Average(xs: seq<real>): int {
    if xs == [] then 0 else Round(Sum(xs) / (|xs| as real))
  }

  function Confidence(claims: seq<Claim>): int {
    Average(Of(claims, None))
  }

  function Focus(claims: seq<Claim>, c: Category): Option<int> {
    var xs := Of(claims, Some(c));
    if xs == [] then None else Some(Average(xs))
  }

  function VerdictOf(confidence: int): Verdict {
    if confidence >= PASS then Pass else if confidence >= CONDITIONAL then Conditional else Fail
  }

  datatype Report = Report(confidence: int, focus: map<Category, Option<int>>, verdict: Verdict)

  const LISTED: set<Category> := {Tokenomics, Performance, Consensus, Scientific}

  function Aggregated(claims: seq<Claim>): Report {
    if |claims| < MIN_EVALUABLE_CLAIMS then Report(0, map c | c in LISTED :: None, InsufficientData)
    else Report(Confidence(claims), map c | c in LISTED :: Focus(claims, c), VerdictOf(Confidence(claims)))
  }

  // ---------- as it runs ----------

  method GroupScores(claims: seq<Claim>) returns (scores: map<Category, seq<real>>)
    ensures scores.Keys == LISTED
    ensures forall c :: c in LISTED ==> scores[c] == Of(claims, Some(c))
  {
    scores := map c | c in LISTED :: [];
    for i := 0 to |claims|
      invariant scores.Keys == LISTED
      invariant forall c :: c in LISTED ==> scores[c] == Of(claims[..i], Some(c))
    {
      assert claims[..i + 1][..i] == claims[..i];
      var claim := claims[i];
      if claim.category in scores {
        scores := scores[claim.category := scores[claim.category] + [claim.score]];
      }
    }
    assert claims[..|claims|] == claims;
  }

  method ComputeFocusAreaScores(claims: seq<Claim>) returns (focus: map<Category, Option<int>>)
    ensures focus == map c | c in LISTED :: Focus(claims, c)
  {
    var scores := GroupScores(claims);
    focus := map c | c in LISTED :: if scores[c] != [] then Some(Average(scores[c])) else None;
  }

  method Aggregate(claims: seq<Claim>) returns (r: Report)
    ensures r == Aggregated(claims)
  {
    if |claims| < MIN_EVALUABLE_CLAIMS {
      return Report(0, map c | c in LISTED :: None, InsufficientData);
    }
    var focus := ComputeFocusAreaScores(claims);
    var confidence := Confidence(claims);
    return Report(confidence, focus, VerdictOf(confidence));
  }

  // ---------- arithmetic ----------

  lemma {:induction false} SumWithin(xs: seq<real>, lo: real, hi: real)
    requires forall i :: 0 <= i < |xs| ==> lo <= xs[i] <= hi
    ensures lo * (|xs| as real) <= Sum(xs) <= hi * (|xs| as real)
  {
    if xs != [] {
      var n := |xs| - 1;
      SumWithin(xs[..n], lo, hi);
      assert lo * (|xs| as real) == lo * (n as real) + lo;
      assert hi * (|xs| as real) == hi * (n as real) + hi;
    }
  }

  lemma QuotientWithin(s: real, n: real, lo: real, hi: real)
    requires n > 0.0 && lo * n <= s <= hi * n
    ensures lo <= s / n <= hi
  {
    assert s == (s / n) * n;
  }

  /** Scores between two whole numbers average and round to something between them. */
  lemma AverageWithin(xs: seq<real>, lo: int, hi: int)
    requires xs != [] && forall i :: 0 <= i < |xs| ==> lo as real <= xs[i] <= hi as real
    ensures lo <= Average(xs) <= hi
  {
    SumWithin(xs, lo as real, hi as real);
    QuotientWithin(Sum(xs), |xs| as real, lo as real, hi as real);
  }

  lemma {:induction false} OfAll(claims: seq<Claim>)
    ensures |Of(claims, None)| == |claims| && forall i :: 0 <= i < |claims| ==> Of(claims, None)[i] == claims[i].score
  {
    if claims != [] {
      OfAll(claims[..|claims| - 1]);
    }
  }

  lemma {:induction false} OfWithin(claims: seq<Claim>, only: Option<Category>, lo: real, hi: real)
    requires forall i :: 0 <= i < |claims| ==> lo <= claims[i].score <= hi
    ensures forall i :: 0 <= i < |Of(claims, only)| ==> lo <= Of(claims, only)[i] <= hi
  {
    if claims != [] {
      OfWithin(claims[..|claims| - 1], only, lo, hi);
    }
  }

  /** Claim scores between two whole numbers give a confidence and focus scores between them. */
  lemma ScoresStayWithin(claims: seq<Claim>, lo: int, hi: int)
    requires claims != [] && forall i :: 0 <= i < |claims| ==> lo as real <= claims[i].score <= hi as real
    ensures lo <= Confidence(claims) <= hi
    ensures forall c :: Focus(claims, c).Some? ==> lo <= Focus(claims, c).value <= hi
  {
    OfAll(claims);
    OfWithin(claims, None, lo as real, hi as real);
    AverageWithin(Of(claims, None), lo, hi);
    forall c | Focus(claims, c).Some?
      ensures lo <= Focus(claims, c).value <= hi
    {
      OfWithin(claims, Some(c), lo as real, hi as real);
      AverageWithin(Of(claims, Some(c)), lo, hi);
    }
  }

  lemma {:induction false} OfCategory(claims: seq<Claim>, c: Category, lo: real, hi: real)
    requires forall i :: 0 <= i < |claims| && claims[i].category == c ==> lo <= claims[i].score <= hi
    ensures Of(claims, Some(c)) == [] <==> forall i :: 0 <= i < |claims| ==> claims[i].category != c
    ensures forall i :: 0 <= i < |Of(claims, Some(c))| ==> lo <= Of(claims, Some(c))[i] <= hi
  {
    if claims != [] {
      OfCategory(claims[..|claims| - 1], c, lo, hi);
    }
  }

  /** A category has a focus score exactly when a claim is of it, and only the claims of it matter: their scores
      between two whole numbers give a focus score between them. */
  lemma FocusIsOfItsCategory(claims: seq<Claim>, c: Category, lo: int, hi: int)
    requires forall i :: 0 <= i < |claims| && claims[i].category == c ==> lo as real <= claims[i].score <= hi as real
    ensures Focus(claims, c).None? <==> forall i :: 0 <= i < |claims| ==> claims[i].category != c
    ensures Focus(claims, c).Some? ==> lo <= Focus(claims, c).value <= hi
  {
    OfCategory(claims, c, lo as real, hi as real);
    if Focus(claims, c).Some? {
      AverageWithin(Of(claims, Some(c)), lo, hi);
    }
  }

  // ---------- the verdict, by the total ----------

  /** The scores of all claims together. */
  function Total(claims: seq<Claim>): real {
    if claims == [] then 0.0 else Total(claims[..|claims| - 1]) + claims[|claims| - 1].score
  }

  lemma {:induction false} TotalIsSum(claims: seq<Claim>)
    ensures Sum(Of(claims, None)) == Total(claims) && |Of(claims, None)| == |claims|
  {
    if claims != [] {
      TotalIsSum(claims[..|claims| - 1]);
      SumOfLast(claims, None);
    }
  }

  lemma RoundsUpFrom(total: real, n: real, k: int)
    requires n > 0.0
    ensures Round(total / n) >= k <==> total >= ((k as real) - 0.5) * n
  {
    var q, bound := total / n, (k as real) - 0.5;
    assert total == q * n;
    if q >= bound {
      QuotientWithin(total - bound * n, n, 0.0, q - bound);
      assert (q - bound) * n == total - bound * n;
    } else {
      Positive(bound - q, n);
      assert (bound - q) * n == bound * n - total;
    }
  }

  /** Fewer than three claims give no verdict; from three on the verdict goes by the total of the scores alone:
      it passes from 69.5 a claim on and fails below 39.5 a claim. */
  lemma VerdictByTotal(claims: seq<Claim>)
    ensures var verdict, n := Aggregated(claims).verdict, |claims| as real;
      && (verdict.InsufficientData? <==> |claims| < 3)
      && (|claims| >= 3 ==> (verdict.Pass? <==> Total(claims) >= 69.5 * n))
      && (|claims| >= 3 ==> (verdict.Fail? <==> Total(claims) < 39.5 * n))
  {
    if |claims| >= 3 {
      TotalIsSum(claims);
      RoundsUpFrom(Total(claims), |claims| as real, 70);
      RoundsUpFrom(Total(claims), |claims| as real, 40);
    }
  }

  // ---------- order does not matter ----------

  lemma {:induction false} SumRemove(xs: seq<real>, k: nat)
    requires k < |xs|
    ensures Sum(xs) == Sum(xs[..k] + xs[k + 1..]) + xs[k]
  {
    var n := |xs| - 1;
    if k < n {
      SumRemove(xs[..n], k);
      assert (xs[..k] + xs[k + 1..])[..n - 1] == xs[..n][..k] + xs[..n][k + 1..];
    } else {
      assert xs[..k] + xs[k + 1..] == xs[..n];
    }
  }

  lemma MultisetRemove<T>(xs: seq<T>, ys: seq<T>, k: nat)
    requires multiset(xs) == multiset(ys) && xs != [] && k < |ys| && ys[k] == xs[|xs| - 1]
    ensures multiset(xs[..|xs| - 1]) == multiset(ys[..k] + ys[k + 1..])
  {
    var n := |xs| - 1;
    assert xs == xs[..n] + [xs[n]];
    assert ys == ys[..k] + [ys[k]] + ys[k + 1..];
    assert multiset(xs[..n]) == multiset(xs) - multiset{xs[n]};
  }

  lemma {:induction false} SumPermuted(xs: seq<real>, ys: seq<real>)
    requires multiset(xs) == multiset(ys)
    ensures Sum(xs) == Sum(ys) && |xs| == |ys|
    decreases |xs|
  {
    assert |multiset(xs)| == |xs| && |multiset(ys)| == |ys|;
    if xs != [] {
      var n := |xs| - 1;
      assert xs[n] in multiset(xs);
      var k :| 0 <= k < |ys| && ys[k] == xs[n];
      MultisetRemove(xs, ys, k);
      SumPermuted(xs[..n], ys[..k] + ys[k + 1..]);
      SumRemove(ys, k);
    }
  }

  lemma {:induction false} OfConcat(a: seq<Claim>, b: seq<Claim>, only: Option<Category>)
    ensures Of(a + b, only) == Of(a, only) + Of(b, only)
  {
    if b == [] {
      assert a + b == a;
    } else {
      var n := |b| - 1;
      assert (a + b)[..|a + b| - 1] == a + b[..n] && (a + b)[|a + b| - 1] == b[n];
      OfConcat(a, b[..n], only);
    }
  }

  lemma OfMove(claims: seq<Claim>, k: nat, only: Option<Category>)
    requires k < |claims|
    ensures multiset(Of(claims, only)) ==
            multiset(Of(claims[..k] + claims[k + 1..], only)) + multiset(Of([claims[k]], only))
  {
    assert claims == claims[..k] + [claims[k]] + claims[k + 1..];
    OfConcat(claims[..k], [claims[k]], only);
    OfConcat(claims[..k] + [claims[k]], claims[k + 1..], only);
    OfConcat(claims[..k], claims[k + 1..], only);
  }

  lemma {:induction false} OfPermuted(a: seq<Claim>, b: seq<Claim>, only: Option<Category>)
    requires multiset(a) == multiset(b)
    ensures multiset(Of(a, only)) == multiset(Of(b, only))
    decreases |a|
  {
    assert |multiset(a)| == |a| && |multiset(b)| == |b|;
    if a != [] {
      var n := |a| - 1;
      assert a[n] in multiset(a);
      var k :| 0 <= k < |b| && b[k] == a[n];
      MultisetRemove(a, b, k);
      OfPermuted(a[..n], b[..k] + b[k + 1..], only);
      OfMove(a, n, only);
      OfMove(b, k, only);
      assert a[..n] + a[n + 1..] == a[..n];
    }
  }

  lemma AveragePermuted(a: seq<Claim>, b: seq<Claim>, only: Option<Category>)
    requires multiset(a) == multiset(b)
    ensures Average(Of(a, only)) == Average(Of(b, only)) && |Of(a, only)| == |Of(b, only)|
  {
    OfPermuted(a, b, only);
    SumPermuted(Of(a, only), Of(b, only));
  }

  /** The report does not depend on the order of the claims. */
  lemma OrderDoesNotMatter(a: seq<Claim>, b: seq<Claim>)
    requires multiset(a) == multiset(b)
    ensures Aggregated(a) == Aggregated(b)
  {
    assert |a| == |multiset(a)| && |b| == |multiset(b)|;
    AveragePermuted(a, b, None);
    forall c: Category
      ensures Focus(a, c) == Focus(b, c)
    {
      AveragePermuted(a, b, Some(c));
    }
  }

  // ---------- better scores, no worse verdict ----------

  function Rank(v: Verdict): nat {
    match v
    case InsufficientData => 0
    case Fail => 1
    case Conditional => 2
    case Pass => 3
  }

  ghost predicate NoWorse(a: seq<Claim>, b: seq<Claim>) {
    |a| == |b| && forall i :: 0 <= i < |a| ==> a[i].category == b[i].category && a[i].score <= b[i].score
  }

  lemma {:induction false} SumMonotone(xs: seq<real>, ys: seq<real>)
    requires |xs| == |ys| && forall i :: 0 <= i < |xs| ==> xs[i] <= ys[i]
    ensures Sum(xs) <= Sum(ys)
  {
    if xs != [] {
      SumMonotone(xs[..|xs| - 1], ys[..|ys| - 1]);
    }
  }

  lemma QuotientMonotone(s: real, t: real, n: real)
    requires n > 0.0 && s <= t
    ensures s / n <= t / n
  {
    assert t / n - s / n == (t - s) / n;
    QuotientWithin(t - s, n, 0.0, t / n - s / n);
  }

  /** When scores rise, neither the confidence nor the verdict drops. */
  lemma RisingScoresNeverHurt(a: seq<Claim>, b: seq<Claim>)
    requires NoWorse(a, b)
    ensures Aggregated(a).confidence <= Aggregated(b).confidence
    ensures Rank(Aggregated(a).verdict) <= Rank(Aggregated(b).verdict)
  {
    OfAll(a);
    OfAll(b);
    SumMonotone(Of(a, None), Of(b, None));
    if a != [] {
      QuotientMonotone(Sum(Of(a, None)), Sum(Of(b, None)), |a| as real);
    }
  }

  // ---------- confidence against focus scores ----------

  // Twice the distance between `n` times a rounded value and a total is at most `n`.
  predicate Near(n: real, scaled: real, total: real) {
    -n <= 2.0 * (scaled - total) <= n
  }

  lemma RoundIsNear(q: real)
    ensures -1.0 <= 2.0 * ((Round(q) as real) - q) <= 1.0
  {
  }

  lemma ScaledIsNear(n: real, rounded: real, q: real)
    requires n > 0.0 && -1.0 <= 2.0 * (rounded - q) <= 1.0
    ensures Near(n, n * rounded, n * q)
  {
    var d := 2.0 * (rounded - q);
    assert n * (1.0 - d) >= 0.0 && n * (1.0 + d) >= 0.0;
    assert 2.0 * (n * rounded - n * q) == n * d;
  }

  lemma TimesQuotient(n: real, s: real)
    requires n > 0.0
    ensures n * (s / n) == s
  {
  }

  lemma AverageIsNear(xs: seq<real>)
    ensures var n := |xs| as real;
      Near(n, n * (Average(xs) as real), Sum(xs))
  {
    if xs != [] {
      RoundedIsNear(|xs| as real, Sum(xs));
    }
  }

  lemma RoundedIsNear(n: real, total: real)
    requires n > 0.0
    ensures Near(n, n * (Round(total / n) as real), total)
  {
    TimesQuotient(n, total);
    RoundIsNear(total / n);
    ScaledIsNear(n, Round(total / n) as real, total / n);
  }

  /** The number of claims of a category times its focus score; nothing for a null score. */
  function Weighted(claims: seq<Claim>, c: Category): real {
    var f := Focus(claims, c);
    if f.None? then 0.0 else (|Of(claims, Some(c))| as real) * (f.value as real)
  }

  lemma {:induction false} CategoriesPartition(claims: seq<Claim>)
    requires forall i :: 0 <= i < |claims| ==> !claims[i].category.Unlisted?
    ensures Sum(Of(claims, None)) == Sum(Of(claims, Some(Tokenomics))) + Sum(Of(claims, Some(Performance)))
                                   + Sum(Of(claims, Some(Consensus))) + Sum(Of(claims, Some(Scientific)))
    ensures |claims| == |Of(claims, Some(Tokenomics))| + |Of(claims, Some(Performance))|
                      + |Of(claims, Some(Consensus))| + |Of(claims, Some(Scientific))|
  {
    if claims != [] {
      var n := |claims| - 1;
      CategoriesPartition(claims[..n]);
      SumOfLast(claims, None);
      SumOfLast(claims, Some(Tokenomics));
      SumOfLast(claims, Some(Performance));
      SumOfLast(claims, Some(Consensus));
      SumOfLast(claims, Some(Scientific));
    }
  }

  lemma SumOfLast(claims: seq<Claim>, only: Option<Category>)
    requires claims != []
    ensures var n := |claims| - 1;
      var counted := only.None? || only.value == claims[n].category;
      && Sum(Of(claims, only)) == Sum(Of(claims[..n], only)) + (if counted then claims[n].score else 0.0)
      && |Of(claims, only)| == |Of(claims[..n], only)| + (if counted then 1 else 0)
  {
    var n := |claims| - 1;
    var head := Of(claims[..n], only);
    if only.None? || only.value == claims[n].category {
      assert (head + [claims[n].score])[..|head|] == head;
    } else {
      assert Of(claims, only) == head;
    }
  }

  /** The focus scores that are not null, each times its number of claims. */
  function WeightedTotal(claims: seq<Claim>): real {
    Weighted(claims, Tokenomics) + Weighted(claims, Performance)
      + Weighted(claims, Consensus) + Weighted(claims, Scientific)
  }

  /** When every claim has a listed category, the confidence differs by at most one from the mean of the
      focus scores that are not null, weighted by their numbers of claims. */
  lemma ConfidenceIsNearWeightedMean(claims: seq<Claim>)
    requires claims != [] && forall i :: 0 <= i < |claims| ==> !claims[i].category.Unlisted?
    ensures -1.0 <= (Confidence(claims) as real) - WeightedTotal(claims) / (|claims| as real) <= 1.0
  {
    OfAllSize(claims);
    var n, total := |claims| as real, Sum(Of(claims, None));
    RoundIsNear(total / n);
    WeightedSumIsNear(claims);
    QuotientsAreNear(n, WeightedTotal(claims), total);
  }

  lemma {:induction false} OfAllSize(claims: seq<Claim>)
    ensures |Of(claims, None)| == |claims|
  {
    if claims != [] {
      OfAllSize(claims[..|claims| - 1]);
    }
  }

  lemma WeightedSumIsNear(claims: seq<Claim>)
    requires forall i :: 0 <= i < |claims| ==> !claims[i].category.Unlisted?
    ensures Near(|claims| as real, WeightedTotal(claims), Sum(Of(claims, None)))
  {
    CategoriesPartition(claims);
    var t, p := Of(claims, Some(Tokenomics)), Of(claims, Some(Performance));
    var c, s := Of(claims, Some(Consensus)), Of(claims, Some(Scientific));
    WeightedIsNear(claims, Tokenomics);
    WeightedIsNear(claims, Performance);
    WeightedIsNear(claims, Consensus);
    WeightedIsNear(claims, Scientific);
    var wt, wp, wc := Weighted(claims, Tokenomics), Weighted(claims, Performance), Weighted(claims, Consensus);
    NearPlus(|t| as real, wt, Sum(t), |p| as real, wp, Sum(p));
    NearPlus(|t| as real + |p| as real, wt + wp, Sum(t) + Sum(p), |c| as real, wc, Sum(c));
    NearPlus(|t| as real + |p| as real + |c| as real, wt + wp + wc, Sum(t) + Sum(p) + Sum(c),
             |s| as real, Weighted(claims, Scientific), Sum(s));
  }

  lemma WeightedIsNear(claims: seq<Claim>, c: Category)
    ensures Near(|Of(claims, Some(c))| as real, Weighted(claims, c), Sum(Of(claims, Some(c))))
  {
    var xs := Of(claims, Some(c));
    AverageIsNear(xs);
    if xs == [] {
      assert Sum(xs) == 0.0 && Weighted(claims, c) == 0.0;
    } else {
      assert Weighted(claims, c) == (|xs| as real) * (Average(xs) as real);
    }
  }

  lemma NearPlus(n: real, a: real, s: real, m: real, b: real, t: real)
    requires Near(n, a, s) && Near(m, b, t)
    ensures Near(n + m, a + b, s + t)
  {
  }

  lemma Positive(a: real, b: real)
    requires a > 0.0 && b > 0.0
    ensures a * b > 0.0
  {
  }

  lemma LargeFactor(n: real, d: real)
    requires n > 0.0
    ensures d > 1.0 ==> n * d > n
  {
    if d > 1.0 {
      Positive(n, d - 1.0);
      assert n * (d - 1.0) == n * d - n;
    }
  }

  lemma FactorWithinOne(n: real, d: real, product: real)
    requires n > 0.0 && product == n * d && -n <= product <= n
    ensures -1.0 <= d <= 1.0
  {
    LargeFactor(n, d);
    LargeFactor(n, -d);
    assert n * -d == -product;
  }

  lemma QuotientsAreNear(n: real, w: real, total: real)
    requires n > 0.0 && Near(n, w, total)
    ensures -1.0 <= 2.0 * (w / n - total / n) <= 1.0
  {
    var d := w / n - total / n;
    TimesQuotient(n, w);
    TimesQuotient(n, total);
    assert n * (2.0 * d) == 2.0 * (w - total);
    FactorWithinOne(n, 2.0 * d, 2.0 * (w - total));
  }
}
