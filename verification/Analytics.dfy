/**
 The public scores: per-company averages, the platform averages recomputed from them, and the
 shrinkage of small samples. Exact real arithmetic, except that the aggregation views round
 each company average to two decimals.
 */
module Analytics {
  import opened Wrappers

  type Company = nat

  datatype Rating = Rating(company: Company, score: real)
  datatype ViewRow = ViewRow(average: real, sampleSize: nat)

  const DEFAULT_SHRINKAGE_K := 8
  const MIN_SAMPLE_SIZE := 3

  // ---- aggregation ----

  function Sum(scores: seq<real>): real {
    if scores == [] then 0.0 else scores[0] + Sum(scores[1..])
  }

  function Average(scores: seq<real>): real
    requires scores != []
  {
    Sum(scores) / |scores| as real
  }

  /** The scores of the ratings of these companies, in row order. */
  function ScoresOf(rows: seq<Rating>, companies: set<Company>): seq<real> {
    if rows == [] then []
    else if rows[0].company in companies then [rows[0].score] + ScoresOf(rows[1..], companies)
    else ScoresOf(rows[1..], companies)
  }

  function AllScores(rows: seq<Rating>): seq<real> {
    seq(|rows|, i requires 0 <= i < |rows| => rows[i].score)
  }

  function ViewRowOf(rows: seq<Rating>, c: Company): ViewRow {
    var scores := ScoresOf(rows, {c});
    ViewRow(if scores == [] then 0.0 else Average(scores), |scores|)
  }

  function View(rows: seq<Rating>, companies: seq<Company>): seq<ViewRow> {
    seq(|companies|, i requires 0 <= i < |companies| => ViewRowOf(rows, companies[i]))
  }

  function Weigh(value: real, weight: real): real {
    value * weight
  }

  function WeightedSum(view: seq<ViewRow>): real {
    if view == [] then 0.0 else Weigh(view[0].average, view[0].sampleSize as real) + WeightedSum(view[1..])
  }

  function SampleSize(view: seq<ViewRow>): nat {
    if view == [] then 0 else view[0].sampleSize + SampleSize(view[1..])
  }

  /** Each company's average weighted by its sample size; nothing when there is no sample. */
  function GlobalAverage(view: seq<ViewRow>): Option<real> {
    if SampleSize(view) == 0 then None else Some(WeightedSum(view) / SampleSize(view) as real)
  }

  /** The view groups by company, so it has one row for each company that has a rating. */
  predicate Groups(rows: seq<Rating>, companies: seq<Company>) {
    && (forall i, j :: 0 <= i < j < |companies| ==> companies[i] != companies[j])
    && (forall c :: c in companies ==> exists i :: 0 <= i < |rows| && rows[i].company == c)
    && (forall i :: 0 <= i < |rows| ==> rows[i].company in companies)
  }

  lemma {:induction false} ScoresOfOneMore(rows: seq<Rating>, companies: set<Company>, c: Company)
    requires c !in companies
    ensures Sum(ScoresOf(rows, companies + {c})) == Sum(ScoresOf(rows, companies)) + Sum(ScoresOf(rows, {c}))
    ensures |ScoresOf(rows, companies + {c})| == |ScoresOf(rows, companies)| + |ScoresOf(rows, {c})|
  {
    if rows != [] { ScoresOfOneMore(rows[1..], companies, c); }
  }

  lemma {:induction false} NoScores(rows: seq<Rating>)
    ensures ScoresOf(rows, {}) == []
  {
    if rows != [] { NoScores(rows[1..]); }
  }

  lemma {:induction false} EveryScore(rows: seq<Rating>, companies: set<Company>)
    requires forall i :: 0 <= i < |rows| ==> rows[i].company in companies
    ensures ScoresOf(rows, companies) == AllScores(rows)
  {
    if rows != [] {
      EveryScore(rows[1..], companies);
      assert AllScores(rows) == [rows[0].score] + AllScores(rows[1..]);
    }
  }

  lemma RowWeighs(rows: seq<Rating>, c: Company)
    ensures ViewRowOf(rows, c).average * ViewRowOf(rows, c).sampleSize as real == Sum(ScoresOf(rows, {c}))
  {
  }

  function Listed(companies: seq<Company>): set<Company> {
    set c | c in companies
  }

  lemma {:induction false} ViewSums(rows: seq<Rating>, companies: seq<Company>)
    requires forall i, j :: 0 <= i < j < |companies| ==> companies[i] != companies[j]
    ensures WeightedSum(View(rows, companies)) == Sum(ScoresOf(rows, Listed(companies)))
    ensures SampleSize(View(rows, companies)) == |ScoresOf(rows, Listed(companies))|
  {
    if companies == [] {
      assert Listed(companies) == {};
      NoScores(rows);
    } else {
      ViewSums(rows, companies[1..]);
      assert View(rows, companies)[1..] == View(rows, companies[1..]);
      assert Listed(companies) == Listed(companies[1..]) + {companies[0]};
      ScoresOfOneMore(rows, Listed(companies[1..]), companies[0]);
      RowWeighs(rows, companies[0]);
    }
  }

  /** Before rounding, the weighted average of the company averages is the average of the raw
      ratings, over any number of companies. */
  lemma {:induction false} WeightedAverageIsRawAverage(rows: seq<Rating>, companies: seq<Company>)
    requires Groups(rows, companies)
    ensures GlobalAverage(View(rows, companies)) == if rows == [] then None else Some(Average(AllScores(rows)))
  {
    ViewSums(rows, companies);
    EveryScore(rows, Listed(companies));
  }

  // ---- the views round ----

  /** To two decimals, halves up; scores and percentages are not negative. */
  function Rounded(x: real): real {
    (x * 100.0 + 0.5).Floor as real / 100.0
  }

  function RoundedView(view: seq<ViewRow>): seq<ViewRow> {
    seq(|view|, i requires 0 <= i < |view| => ViewRow(Rounded(view[i].average), view[i].sampleSize))
  }

  /** At most `eps` apart. */
  predicate Near(a: real, b: real, eps: real) {
    a - b <= eps && b - a <= eps
  }

  const HALF_A_HUNDREDTH := 0.005

  lemma WeightedError(a: real, b: real, n: real, eps: real)
    requires n >= 0.0 && Near(a, b, eps)
    ensures Near(Weigh(a, n), Weigh(b, n), Weigh(eps, n))
  {
  }

  lemma ErrorsAdd(a: real, a': real, b: real, b': real, n: real, m: real, eps: real)
    requires Near(a, a', Weigh(eps, n)) && Near(b, b', Weigh(eps, m))
    ensures Near(a + b, a' + b', Weigh(eps, n + m))
  {
  }

  /** Views that differ only in averages at most `eps` apart have weighted sums to match. */
  lemma {:induction false} NearSums(view: seq<ViewRow>, other: seq<ViewRow>, eps: real)
    requires |other| == |view|
    requires forall i :: 0 <= i < |view| ==>
      other[i].sampleSize == view[i].sampleSize && Near(other[i].average, view[i].average, eps)
    ensures SampleSize(other) == SampleSize(view)
    ensures Near(WeightedSum(other), WeightedSum(view), Weigh(eps, SampleSize(view) as real))
  {
    hide Weigh, Near;
    if view == [] {
      NothingWeighs(eps);
    } else {
      NearSums(view[1..], other[1..], eps);
      var n, m := view[0].sampleSize as real, SampleSize(view[1..]) as real;
      WeightedError(other[0].average, view[0].average, n, eps);
      ErrorsAdd(Weigh(other[0].average, n), Weigh(view[0].average, n),
                WeightedSum(other[1..]), WeightedSum(view[1..]), n, m, eps);
      assert SampleSize(view) as real == n + m;
    }
  }

  lemma NothingWeighs(eps: real)
    ensures Near(0.0, 0.0, Weigh(eps, 0.0))
  {
  }

  lemma DivideGap(a: real, b: real, n: real, eps: real)
    requires n > 0.0 && Near(a, b, Weigh(eps, n))
    ensures Near(a / n, b / n, eps)
  {
  }

  /** What the platform average is computed from are the rounded averages, which puts it within
      half a hundredth of the raw average. */
  lemma {:induction false} RoundedAverageIsClose(rows: seq<Rating>, companies: seq<Company>)
    requires Groups(rows, companies) && rows != []
    ensures var g := GlobalAverage(RoundedView(View(rows, companies)));
      g.Some? && Near(g.value, Average(AllScores(rows)), HALF_A_HUNDREDTH)
  {
    var view := View(rows, companies);
    WeightedAverageIsRawAverage(rows, companies);
    assert forall i :: 0 <= i < |view| ==> Near(RoundedView(view)[i].average, view[i].average, HALF_A_HUNDREDTH);
    hide Near, Rounded;
    NearSums(view, RoundedView(view), HALF_A_HUNDREDTH);
    DivideGap(WeightedSum(RoundedView(view)), WeightedSum(view), SampleSize(view) as real, HALF_A_HUNDREDTH);
  }

  // ---- when the rounding does not show ----

  predicate HasTwoDecimals(x: real) {
    x * 100.0 == (x * 100.0).Floor as real
  }

  lemma FloorIff(y: real)
    ensures (y + 0.5).Floor as real == y <==> y == y.Floor as real
  {
    var n := (y + 0.5).Floor;
    if n as real == y { assert y.Floor == n; }
    if y == y.Floor as real { assert n == y.Floor; }
  }

  lemma HundredthIff(x: real, n: int)
    ensures n as real / 100.0 == x <==> n as real == x * 100.0
  {
  }

  lemma RoundedIff(x: real)
    ensures Rounded(x) == x <==> HasTwoDecimals(x)
  {
    HundredthIff(x, (x * 100.0 + 0.5).Floor);
    FloorIff(x * 100.0);
  }

  /** What rounding adds to each company's average, weighted by its sample. */
  function WeightedErrors(view: seq<ViewRow>): real {
    if view == [] then 0.0 else
    Weigh(Rounded(view[0].average) - view[0].average, view[0].sampleSize as real) + WeightedErrors(view[1..])
  }

  lemma WeighAdds(a: real, b: real, n: real)
    ensures Weigh(a, n) == Weigh(b, n) + Weigh(a - b, n)
  {
  }

  lemma {:induction false} ErrorsAreTheGap(view: seq<ViewRow>)
    ensures WeightedSum(RoundedView(view)) == WeightedSum(view) + WeightedErrors(view)
    ensures SampleSize(RoundedView(view)) == SampleSize(view)
  {
    hide Weigh, Rounded;
    if view != [] {
      ErrorsAreTheGap(view[1..]);
      assert RoundedView(view)[1..] == RoundedView(view[1..]);
      WeighAdds(Rounded(view[0].average), view[0].average, view[0].sampleSize as real);
    }
  }

  lemma QuotientsAgreeIff(a: real, gap: real, n: real)
    requires n > 0.0
    ensures (a + gap) / n == a / n <==> gap == 0.0
  {
    assert (a + gap) / n * n == a + gap && a / n * n == a;
  }

  /** Over any number of companies the platform average is the raw average exactly when the
      sample-weighted rounding errors cancel. */
  lemma {:induction false} RoundingInvisibleIff(rows: seq<Rating>, companies: seq<Company>)
    requires Groups(rows, companies) && rows != []
    ensures GlobalAverage(RoundedView(View(rows, companies))) == Some(Average(AllScores(rows)))
            <==> WeightedErrors(View(rows, companies)) == 0.0
  {
    var view := View(rows, companies);
    WeightedAverageIsRawAverage(rows, companies);
    ErrorsAreTheGap(view);
    QuotientsAgreeIff(WeightedSum(view), WeightedErrors(view), SampleSize(view) as real);
  }

  lemma {:induction false} NoErrors(view: seq<ViewRow>)
    requires forall i :: 0 <= i < |view| ==> HasTwoDecimals(view[i].average)
    ensures WeightedErrors(view) == 0.0
  {
    if view != [] {
      RoundedIff(view[0].average);
      NoErrors(view[1..]);
    }
  }

  /** So it is whenever no company average has more than two decimals. */
  lemma {:induction false} TwoDecimalsSuffice(rows: seq<Rating>, companies: seq<Company>)
    requires Groups(rows, companies) && rows != []
    requires forall i :: 0 <= i < |companies| ==> HasTwoDecimals(ViewRowOf(rows, companies[i]).average)
    ensures GlobalAverage(RoundedView(View(rows, companies))) == Some(Average(AllScores(rows)))
  {
    NoErrors(View(rows, companies));
    RoundingInvisibleIff(rows, companies);
  }

  /** With a single company that condition is also necessary. */
  lemma {:induction false} OneCompanyIff(rows: seq<Rating>, c: Company)
    requires Groups(rows, [c]) && rows != []
    ensures GlobalAverage(RoundedView(View(rows, [c]))) == Some(Average(AllScores(rows)))
            <==> HasTwoDecimals(Average(AllScores(rows)))
  {
    var view := View(rows, [c]);
    RoundingInvisibleIff(rows, [c]);
    EveryScore(rows, {c});
    RoundedIff(view[0].average);
    assert view[0] == ViewRow(Average(AllScores(rows)), |rows|);
    assert view[1..] == [] && WeightedErrors(view[1..]) == 0.0;
    ZeroWeight(Rounded(view[0].average) - view[0].average, |rows| as real);
  }

  lemma ZeroWeight(e: real, n: real)
    requires n > 0.0
    ensures Weigh(e, n) == 0.0 <==> e == 0.0
  {
  }

  /** It need not be equal to it: three ratings of 1, 1 and 2 average 4/3, the view says 1.33. */
  lemma {:induction false} RoundingShows()
    ensures var rows := [Rating(0, 1.0), Rating(0, 1.0), Rating(0, 2.0)];
      && Groups(rows, [0])
      && GlobalAverage(View(rows, [0])) == Some(Average(AllScores(rows)))
      && GlobalAverage(RoundedView(View(rows, [0]))) == Some(1.33)
      && Average(AllScores(rows)) != 1.33
  {
    var rows := [Rating(0, 1.0), Rating(0, 1.0), Rating(0, 2.0)];
    assert rows[0].company == 0;
    assert Groups(rows, [0]);
    WeightedAverageIsRawAverage(rows, [0]);
    EveryScore(rows, {0});
    ThreeScores(rows);
    var view, rounded := View(rows, [0]), RoundedView(View(rows, [0]));
    assert view == [ViewRow(4.0 / 3.0, 3)];
    assert Rounded(4.0 / 3.0) == 1.33;
    assert rounded == [ViewRow(1.33, 3)];
    assert WeightedSum(rounded[1..]) == 0.0 && SampleSize(rounded[1..]) == 0;
  }

  lemma ThreeScores(rows: seq<Rating>)
    requires rows == [Rating(0, 1.0), Rating(0, 1.0), Rating(0, 2.0)]
    ensures AllScores(rows) == [1.0, 1.0, 2.0] && Average(AllScores(rows)) == 4.0 / 3.0
  {
    var s := AllScores(rows);
    assert s[1..] == [1.0, 2.0] && s[1..][1..] == [2.0] && s[1..][1..][1..] == [];
    assert Sum(s[1..][1..]) == 2.0 && Sum(s[1..]) == 3.0;
    assert Sum(s) == 4.0 && |s| as real == 3.0;
  }

  // ---- shrinkage ----

  function ShrinkageScore(n: nat, companyAvg: real, globalAvg: real, k: nat := DEFAULT_SHRINKAGE_K): Option<real> {
    if n < MIN_SAMPLE_SIZE then None
    else Some(n as real / (n + k) as real * companyAvg + k as real / (n + k) as real * globalAvg)
  }

  /** The score lies between the two averages, and its distance from the company's own is the
      fraction k / (n + k) of their gap. */
  lemma ScoreLiesBetween(n: nat, companyAvg: real, globalAvg: real, k: nat)
    ensures ShrinkageScore(n, companyAvg, globalAvg, k).None? <==> n < 3
    ensures n >= 3 ==> var s := ShrinkageScore(n, companyAvg, globalAvg, k).value;
      && companyAvg - s == k as real / (n + k) as real * (companyAvg - globalAvg)
      && s - globalAvg == n as real / (n + k) as real * (companyAvg - globalAvg)
      && (companyAvg <= globalAvg ==> companyAvg <= s <= globalAvg)
      && (globalAvg <= companyAvg ==> globalAvg <= s <= companyAvg)
  {
  }

  function Distance(a: real, b: real): real { if a < b then b - a else a - b }

  lemma SharesCompare(a: real, b: real, gap: real, n: nat)
    requires n > 0 && gap != 0.0 && a == 8 as real / (n + 8) as real * gap && b == n as real / (n + 8) as real * gap
    ensures Distance(a, 0.0) < Distance(b, 0.0) <==> n > 8
  {
    var share := gap / (n + 8) as real;
    assert a == 8.0 * share && b == n as real * share;
    SameSign(gap, (n + 8) as real, share);
    Factor(n as real, share);
    Factor(n as real - 8.0, share);
    assert b - a == (n as real - 8.0) * share;
    assert n > 8 <==> n as real - 8.0 > 0.0;
    assert if share > 0.0 then a > 0.0 && b > 0.0 else a < 0.0 && b < 0.0;
  }

  lemma SameSign(x: real, y: real, q: real)
    requires y > 0.0 && q == x / y
    ensures q == 0.0 <==> x == 0.0
    ensures q > 0.0 <==> x > 0.0
  {
    assert q * y == x;
  }

  lemma Factor(x: real, y: real)
    ensures y > 0.0 ==> (x * y > 0.0 <==> x > 0.0)
    ensures y < 0.0 ==> (x * y < 0.0 <==> x > 0.0)
  {
    if x == 0.0 { assert x * y == 0.0; }
  }

  /** By default a company's own ratings outweigh the platform average from the ninth on: only
      then is the score nearer to the company's average. */
  lemma OwnRatingsOutweighIff(n: nat, companyAvg: real, globalAvg: real)
    requires n >= 3 && companyAvg != globalAvg
    ensures var s := ShrinkageScore(n, companyAvg, globalAvg).value;
      Distance(s, companyAvg) < Distance(s, globalAvg) <==> n >= 9
  {
    ScoreLiesBetween(n, companyAvg, globalAvg, 8);
    var s := ShrinkageScore(n, companyAvg, globalAvg).value;
    SharesCompare(companyAvg - s, s - globalAvg, companyAvg - globalAvg, n);
    hide ShrinkageScore;
  }

  predicate Bounded(scores: seq<real>, lo: real, hi: real) {
    forall i :: 0 <= i < |scores| ==> lo <= scores[i] <= hi
  }

  lemma {:induction false} SumBounds(scores: seq<real>, lo: real, hi: real)
    requires Bounded(scores, lo, hi)
    ensures Weigh(lo, |scores| as real) <= Sum(scores) <= Weigh(hi, |scores| as real)
  {
    if scores != [] {
      SumBounds(scores[1..], lo, hi);
      assert |scores| as real == 1.0 + |scores[1..]| as real;
    }
  }

  lemma {:induction false} SumConcat(a: seq<real>, b: seq<real>)
    ensures Sum(a + b) == Sum(a) + Sum(b)
  {
    if a == [] {
      assert a + b == b;
    } else {
      SumConcat(a[1..], b);
      assert (a + b)[1..] == a[1..] + b;
    }
  }

  /** The displayed score of a company with these ratings. */
  function Displayed(scores: seq<real>, globalAvg: real, k: nat): Option<real> {
    if scores == [] then None else ShrinkageScore(|scores|, Average(scores), globalAvg, k)
  }

  /** `s` is the quotient of `total` by `n`. */
  predicate Divides(s: real, n: real, total: real) {
    s * n == total
  }

  lemma DisplayedDivides(scores: seq<real>, globalAvg: real, k: nat)
    requires |scores| >= MIN_SAMPLE_SIZE
    ensures Displayed(scores, globalAvg, k).Some?
    ensures Divides(Displayed(scores, globalAvg, k).value, (|scores| + k) as real,
                    Sum(scores) + Weigh(globalAvg, k as real))
  {
  }

  /** Extra ratings move the score by their number times the gap between their own average and
      the score, over n + m + k. */
  lemma Movement(base: seq<real>, extra: seq<real>, globalAvg: real, k: nat)
    requires |base| >= MIN_SAMPLE_SIZE
    ensures Displayed(base, globalAvg, k).Some? && Displayed(base + extra, globalAvg, k).Some?
    ensures var s, s' := Displayed(base, globalAvg, k).value, Displayed(base + extra, globalAvg, k).value;
      Divides(s' - s, (|base| + |extra| + k) as real, Sum(extra) - Weigh(s, |extra| as real))
  {
    hide *;
    SumConcat(base, extra);
    DisplayedDivides(base, globalAvg, k);
    DisplayedDivides(base + extra, globalAvg, k);
    var n, m, pull := (|base| + k) as real, |extra| as real, Weigh(globalAvg, k as real);
    assert |base + extra| == |base| + |extra|;
    assert (|base + extra| + k) as real == n + m;
    Shift(Displayed(base, globalAvg, k).value, Displayed(base + extra, globalAvg, k).value, n, m,
          Sum(base), Sum(extra), pull);
  }

  lemma Shift(s: real, s': real, n: real, m: real, base: real, extra: real, pull: real)
    requires Divides(s, n, base + pull) && Divides(s', n + m, base + extra + pull)
    ensures Divides(s' - s, n + m, extra - Weigh(s, m))
  {
  }

  lemma Quotient(x: real, d: real, b: real)
    requires d > 0.0 && -b <= x * d <= b
    ensures -(b / d) <= x <= b / d
  {
  }

  lemma ScoreBounds(base: seq<real>, lo: real, hi: real, globalAvg: real, k: nat)
    requires |base| >= MIN_SAMPLE_SIZE && Bounded(base, lo, hi) && lo <= globalAvg <= hi
    ensures Displayed(base, globalAvg, k).Some? && lo <= Displayed(base, globalAvg, k).value <= hi
  {
    AverageBounds(base, lo, hi);
    ScoreLiesBetween(|base|, Average(base), globalAvg, k);
  }

  lemma Spread(m: real, x: real, s: real, lo: real, hi: real)
    requires m >= 0.0 && m * lo <= x <= m * hi && lo <= s <= hi
    ensures -(m * (hi - lo)) <= x - m * s <= m * (hi - lo)
  {
    assert m * (s - lo) >= 0.0 && m * (hi - s) >= 0.0;
    assert m * (hi - lo) == m * hi - m * lo && m * (s - lo) == m * s - m * lo && m * (hi - s) == m * hi - m * s;
  }

  /** How far `m` more ratings can move a score based on `n`. */
  function Influence(m: nat, n: nat, k: nat, lo: real, hi: real): real
    requires n > 0
  {
    m as real * (hi - lo) / (n + m + k) as real
  }

  /** With every rating and the platform average between `lo` and `hi`, and the platform average
      held fixed, m more ratings move a score by at most m * (hi - lo) / (n + m + k). */
  lemma {:induction false} InfluenceIsBounded(base: seq<real>, extra: seq<real>, lo: real, hi: real,
        globalAvg: real, k: nat)
    requires |base| >= MIN_SAMPLE_SIZE && Bounded(base, lo, hi) && Bounded(extra, lo, hi) && lo <= globalAvg <= hi
    ensures Displayed(base, globalAvg, k).Some? && Displayed(base + extra, globalAvg, k).Some?
    ensures Near(Displayed(base + extra, globalAvg, k).value, Displayed(base, globalAvg, k).value,
                 Influence(|extra|, |base|, k, lo, hi))
  {
    assert |base| > 0;
    hide *;
    SumBounds(extra, lo, hi);
    Movement(base, extra, globalAvg, k);
    ScoreBounds(base, lo, hi, globalAvg, k);
    Settle(Displayed(base, globalAvg, k).value, Displayed(base + extra, globalAvg, k).value,
           |base|, |extra|, k, Sum(extra), lo, hi);
  }

  lemma Settle(s: real, s': real, n: nat, m: nat, k: nat, total: real, lo: real, hi: real)
    requires n > 0 && Divides(s' - s, (n + m + k) as real, total - Weigh(s, m as real))
    requires Weigh(lo, m as real) <= total <= Weigh(hi, m as real) && lo <= s <= hi
    ensures Near(s', s, Influence(m, n, k, lo, hi))
  {
    Spread(m as real, total, s, lo, hi);
    Quotient(s' - s, (n + m + k) as real, m as real * (hi - lo));
  }

  lemma CancelLe(a: real, b: real, d: real)
    requires d > 0.0 && a * d <= b * d
    ensures a <= b
  {
  }

  lemma AverageBounds(scores: seq<real>, lo: real, hi: real)
    requires scores != [] && Bounded(scores, lo, hi)
    ensures lo <= Average(scores) <= hi
  {
    SumBounds(scores, lo, hi);
    hide Sum;
    var n := |scores| as real;
    assert Average(scores) * n == Sum(scores);
    CancelLe(lo, Average(scores), n);
    CancelLe(Average(scores), hi, n);
  }
}
