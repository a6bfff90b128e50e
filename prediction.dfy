/** The approval estimator: an unweighted k-nearest-neighbours vote over the
    dataset rows that share the applicant's product type and intent, and the
    prediction panel refresh around it (js/radar-chart/prediction.js). */
module Prediction {
  import opened Wrappers
  import opened Config
  import opened Utils
  import opened State

  /** The number of neighbours that vote. */
  const K: nat := 15
  /** The loan amount that replaces an amount field parsing to NaN or 0. */
  const FallbackLoanAmount: real := 50000.0

  predicate Matches(r: Record, params: LoanParameters) {
    r.productType == params.productType && r.loanIntent == params.loanIntent
  }

  /** The rows matching both product type and intent, in dataset order. */
  function FilterMatching(data: seq<Record>, params: LoanParameters): (r: seq<Record>)
    ensures |r| <= |data|
    ensures forall x :: x in r ==> x in data && Matches(x, params)
    ensures forall x :: x in data && Matches(x, params) ==> x in r
  {
    if data == [] then []
    else
      assert data == [data[0]] + data[1..];
      (if Matches(data[0], params) then [data[0]] else []) + FilterMatching(data[1..], params)
  }

  /** Filtering keeps the dataset order: it distributes over concatenation. */
  lemma {:induction false} FilterMatchingAppend(a: seq<Record>, b: seq<Record>, params: LoanParameters)
    ensures FilterMatching(a + b, params) == FilterMatching(a, params) + FilterMatching(b, params)
  {
    if a == [] {
      assert a + b == b;
    } else {
      var head := if Matches(a[0], params) then [a[0]] else [];
      var ab := a + b;
      assert ab[0] == a[0] && ab[1..] == a[1..] + b;
      assert FilterMatching(ab, params) == head + FilterMatching(a[1..] + b, params);
      FilterMatchingAppend(a[1..], b, params);
      assert FilterMatching(a, params) == head + FilterMatching(a[1..], params);
      assert head + (FilterMatching(a[1..], params) + FilterMatching(b, params))
          == (head + FilterMatching(a[1..], params)) + FilterMatching(b, params);
    }
  }

  /** Filtering keeps every matching row as often as the dataset holds it,
      and no other row. */
  lemma {:induction false} FilterMatchingCounts(data: seq<Record>, params: LoanParameters)
    ensures forall x ::
      multiset(FilterMatching(data, params))[x] == if Matches(x, params) then multiset(data)[x] else 0
  {
    if data != [] {
      var head := if Matches(data[0], params) then [data[0]] else [];
      FilterMatchingCounts(data[1..], params);
      assert data == [data[0]] + data[1..];
      assert multiset(FilterMatching(data, params)) == multiset(head) + multiset(FilterMatching(data[1..], params));
    }
  }

  /** A single row is kept exactly when it matches. */
  lemma FilterMatchingSingle(r: Record, params: LoanParameters)
    ensures FilterMatching([r], params) == if Matches(r, params) then [r] else []
  {
    assert [r][1..] == [];
  }

  /** The rows the vote draws on: the matching rows, or the whole dataset
      when none matches. */
  function Candidates(data: seq<Record>, params: LoanParameters): (c: seq<Record>)
    ensures forall x :: x in c ==> x in data
    ensures (exists x :: x in data && Matches(x, params)) ==>
      (forall x :: x in c ==> Matches(x, params)) && (forall x :: x in data && Matches(x, params) ==> x in c)
    ensures (forall x :: x in data ==> !Matches(x, params)) ==> c == data
    ensures (exists x :: x in data && Matches(x, params)) ==> c == FilterMatching(data, params)
    ensures data != [] ==> c != []
  {
    var filtered := FilterMatching(data, params);
    if |filtered| > 0 then
      assert filtered[0] in filtered;
      filtered
    else data
  }

  /** The seven fixed ranges of the distance space: the six axes, then the
      loan amount against [0, 200000]. */
  const FeatureMins: seq<real> := [300.0, 25000.0, 0.0, 0.0, 0.0, 0.0, 0.0]
  const FeatureMaxs: seq<real> := [850.0, 175000.0, 100000.0, 20.0, 150000.0, 100.0, 200000.0]

  /** The applicant's normalised point. */
  function QueryVector(input: seq<real>, loanAmount: real): seq<real>
    requires |input| == 6
  {
    [ NormalizeValue(input[0], 300.0, 850.0),
      NormalizeValue(input[1], 25000.0, 175000.0),
      NormalizeValue(input[2], 0.0, 100000.0),
      NormalizeValue(input[3], 0.0, 20.0),
      NormalizeValue(input[4], 0.0, 150000.0),
      NormalizeValue(input[5], 0.0, 100.0),
      NormalizeValue(loanAmount, 0.0, 200000.0) ]
  }

  /** A row's normalised point; its DTI fraction is scaled to a percentage. */
  function RecordVector(r: Record): seq<real> {
    [ NormalizeValue(r.creditScore, 300.0, 850.0),
      NormalizeValue(r.annualIncome, 25000.0, 175000.0),
      NormalizeValue(r.currentDebt, 0.0, 100000.0),
      NormalizeValue(r.yearsEmployed, 0.0, 20.0),
      NormalizeValue(r.savingsAssets, 0.0, 150000.0),
      NormalizeValue(r.debtToIncomeRatio * 100.0, 0.0, 100.0),
      NormalizeValue(r.loanAmount, 0.0, 200000.0) ]
  }

  /** The raw (unnormalised) features of the applicant and of a row. */
  function RawQuery(input: seq<real>, loanAmount: real): seq<real> {
    input + [loanAmount]
  }

  function RawRecord(r: Record): seq<real> {
    [r.creditScore, r.annualIncome, r.currentDebt, r.yearsEmployed, r.savingsAssets,
     r.debtToIncomeRatio * 100.0, r.loanAmount]
  }

  /** Applicant and row are normalised by the same seven ranges, the first
      six being the chart axes; only the row's DTI is scaled by 100. */
  lemma SameNormalisation(input: seq<real>, loanAmount: real, r: Record)
    requires |input| == 6
    ensures |QueryVector(input, loanAmount)| == 7 && |RecordVector(r)| == 7
    ensures forall i :: 0 <= i < 6 ==> FeatureMins[i] == Axes[i].min && FeatureMaxs[i] == Axes[i].max
    ensures FeatureMins[6] == 0.0 && FeatureMaxs[6] == 200000.0
    ensures forall i :: 0 <= i < 7 ==>
      && QueryVector(input, loanAmount)[i] == NormalizeValue(RawQuery(input, loanAmount)[i], FeatureMins[i], FeatureMaxs[i])
      && RecordVector(r)[i] == NormalizeValue(RawRecord(r)[i], FeatureMins[i], FeatureMaxs[i])
  {
  }

  /** A row is at distance zero from the applicant exactly when its raw
      features (DTI as a percentage) equal the applicant's. */
  lemma ZeroDistanceIffSameProfile(input: seq<real>, loanAmount: real, r: Record)
    requires |input| == 6
    ensures SquaredDistance(QueryVector(input, loanAmount), RecordVector(r)) == 0.0 <==>
      RawQuery(input, loanAmount) == RawRecord(r)
  {
    var q, v := QueryVector(input, loanAmount), RecordVector(r);
    var a, b := RawQuery(input, loanAmount), RawRecord(r);
    SameNormalisation(input, loanAmount, r);
    SquaredDistanceZero(q, v);
    forall i | 0 <= i < 7
      ensures q[i] == v[i] <==> a[i] == b[i]
    {
      NormalizeInjective(a[i], b[i], FeatureMins[i], FeatureMaxs[i]);
    }
    if a == b {
      assert forall i :: 0 <= i < 7 ==> q[i] == v[i];
    }
    if forall i :: 0 <= i < 7 ==> q[i] == v[i] {
      assert forall i :: 0 <= i < 7 ==> a[i] == b[i];
      assert a == b;
    }
  }

  /** One entry of the local `distances` array: the squared distance, the
      row's loan status and the row's position among the candidates. */
  datatype Neighbour = Neighbour(distance: real, status: int, pos: nat)

  function Neighbours(cands: seq<Record>, query: seq<real>): (ns: seq<Neighbour>)
    requires |query| == 7
    ensures |ns| == |cands|
    ensures forall i :: 0 <= i < |ns| ==>
      ns[i] == Neighbour(SquaredDistance(query, RecordVector(cands[i])), cands[i].loanStatus, i)
  {
    seq(|cands|, i requires 0 <= i < |cands| =>
      Neighbour(SquaredDistance(query, RecordVector(cands[i])), cands[i].loanStatus, i))
  }

  /** The order a stable ascending sort by distance produces: nearer first,
      and between equal distances the earlier row first. */
  predicate Before(a: Neighbour, b: Neighbour) {
    a.distance < b.distance || (a.distance == b.distance && a.pos < b.pos)
  }

  predicate SortedStable(s: seq<Neighbour>) {
    forall i, j :: 0 <= i < j < |s| ==> Before(s[i], s[j])
  }

  predicate IncreasingPos(s: seq<Neighbour>) {
    forall i, j :: 0 <= i < j < |s| ==> s[i].pos < s[j].pos
  }

  /** Insert x in front of the first entry that is not nearer than x. */
  function Insert(x: Neighbour, s: seq<Neighbour>): (r: seq<Neighbour>)
    ensures |r| == |s| + 1
    ensures multiset(r) == multiset(s) + multiset{x}
  {
    if s == [] || x.distance <= s[0].distance then [x] + s
    else
      assert s == [s[0]] + s[1..];
      [s[0]] + Insert(x, s[1..])
  }

  /** The place Insert puts x: in front of the first entry not nearer. */
  function InsertIndex(x: Neighbour, s: seq<Neighbour>): (j: nat)
    ensures j <= |s|
  {
    if s == [] || x.distance <= s[0].distance then 0 else 1 + InsertIndex(x, s[1..])
  }

  /** Insert puts x just in front of the first entry that is not nearer,
      leaving the entries before and after it as they were. */
  lemma {:induction false} InsertPosition(x: Neighbour, s: seq<Neighbour>)
    ensures var j, r := InsertIndex(x, s), Insert(x, s);
      && r[j] == x
      && (forall k :: 0 <= k < j ==> r[k] == s[k] && s[k].distance < x.distance)
      && (forall k :: j <= k < |s| ==> r[k + 1] == s[k])
      && (j < |s| ==> x.distance <= s[j].distance)
  {
    if s != [] && s[0].distance < x.distance {
      var t := s[1..];
      InsertPosition(x, t);
      var j, r, rt := InsertIndex(x, t), Insert(x, s), Insert(x, t);
      assert r == [s[0]] + rt;
      forall k | 0 <= k < j + 1
        ensures r[k] == s[k] && s[k].distance < x.distance
      {
        if k > 0 { assert r[k] == rt[k - 1] && s[k] == t[k - 1]; }
      }
      forall k | j + 1 <= k < |s|
        ensures r[k + 1] == s[k]
      {
        assert r[k + 1] == rt[k] && s[k] == t[k - 1];
      }
    }
  }

  /** distances.sort((a, b) => a.distance - b.distance), a stable sort. */
  function SortByDistance(ns: seq<Neighbour>): (r: seq<Neighbour>)
    ensures |r| == |ns|
    ensures multiset(r) == multiset(ns)
  {
    if ns == [] then []
    else
      assert ns == [ns[0]] + ns[1..];
      Insert(ns[0], SortByDistance(ns[1..]))
  }

  lemma InMultiset(e: Neighbour, s: seq<Neighbour>)
    requires e in multiset(s)
    ensures exists k :: 0 <= k < |s| && s[k] == e
  {
    assert e in s;
  }

  /** An entry ordered before every entry of a sorted list can go in front. */
  lemma PrependSorted(y: Neighbour, r: seq<Neighbour>)
    requires SortedStable(r)
    requires forall i :: 0 <= i < |r| ==> Before(y, r[i])
    ensures SortedStable([y] + r)
  {
    var t := [y] + r;
    forall i, j | 0 <= i < j < |t|
      ensures Before(t[i], t[j])
    {
      if i == 0 {
        assert t[j] == r[j - 1];
      } else {
        assert t[i] == r[i - 1] && t[j] == r[j - 1];
      }
    }
  }

  lemma {:induction false} InsertSorted(x: Neighbour, s: seq<Neighbour>)
    requires SortedStable(s)
    requires forall i :: 0 <= i < |s| ==> x.pos < s[i].pos
    ensures SortedStable(Insert(x, s))
  {
    if s == [] || x.distance <= s[0].distance {
      forall i | 0 <= i < |s|
        ensures Before(x, s[i])
      {
        if i > 0 { assert Before(s[0], s[i]); }
      }
      PrependSorted(x, s);
    } else {
      var t := s[1..];
      InsertSorted(x, t);
      var r := Insert(x, t);
      forall i | 0 <= i < |r|
        ensures Before(s[0], r[i])
      {
        var e := r[i];
        assert e in multiset(r);
        if e != x {
          assert e in multiset(t);
          InMultiset(e, t);
          var k :| 0 <= k < |t| && t[k] == e;
          assert Before(s[0], s[k + 1]);
        }
      }
      PrependSorted(s[0], r);
    }
  }

  /** On entries listed in their original order, the sort is ascending in
      distance and keeps equal distances in their original order. */
  lemma {:induction false} SortSorted(ns: seq<Neighbour>)
    requires IncreasingPos(ns)
    ensures SortedStable(SortByDistance(ns))
  {
    if ns != [] {
      var t := ns[1..];
      SortSorted(t);
      var st := SortByDistance(t);
      forall i | 0 <= i < |st|
        ensures ns[0].pos < st[i].pos
      {
        assert st[i] in multiset(st);
        InMultiset(st[i], t);
        var k :| 0 <= k < |t| && t[k] == st[i];
        assert ns[k + 1] == t[k];
      }
      InsertSorted(ns[0], st);
    }
  }

  lemma MultisetTails(a: seq<Neighbour>, b: seq<Neighbour>)
    requires a != [] && b != [] && a[0] == b[0]
    requires multiset(a) == multiset(b)
    ensures multiset(a[1..]) == multiset(b[1..])
  {
    assert a == [a[0]] + a[1..] && b == [b[0]] + b[1..];
    assert multiset(a) == multiset{a[0]} + multiset(a[1..]);
    assert multiset(b) == multiset{a[0]} + multiset(b[1..]);
    forall e ensures multiset(a[1..])[e] == multiset(b[1..])[e] {
      assert multiset(a)[e] == multiset{a[0]}[e] + multiset(a[1..])[e];
      assert multiset(b)[e] == multiset{a[0]}[e] + multiset(b[1..])[e];
    }
  }

  lemma SortedStableSameHead(a: seq<Neighbour>, b: seq<Neighbour>)
    requires SortedStable(a) && SortedStable(b)
    requires a != [] && b != [] && multiset(a) == multiset(b)
    ensures a[0] == b[0]
  {
    assert a[0] in multiset(b);
    InMultiset(a[0], b);
    var j :| 0 <= j < |b| && b[j] == a[0];
    assert b[0] in multiset(a);
    InMultiset(b[0], a);
    var i :| 0 <= i < |a| && a[i] == b[0];
  }

  /** Two stably sorted arrangements of the same entries are equal: the
      order the comparator and stability impose leaves no choice. */
  lemma {:induction false} SortedStableUnique(a: seq<Neighbour>, b: seq<Neighbour>)
    requires SortedStable(a) && SortedStable(b)
    requires multiset(a) == multiset(b)
    ensures a == b
  {
    assert |a| == |multiset(a)| == |multiset(b)| == |b|;
    if a != [] {
      SortedStableSameHead(a, b);
      MultisetTails(a, b);
      SortedStableUnique(a[1..], b[1..]);
      assert a == [a[0]] + a[1..] && b == [b[0]] + b[1..];
    }
  }

  /** SortByDistance is the sort the source asks for: any stable ascending
      arrangement of the entries coincides with it. */
  lemma StableSortIsDetermined(ns: seq<Neighbour>, t: seq<Neighbour>)
    requires IncreasingPos(ns)
    requires multiset(t) == multiset(ns) && SortedStable(t)
    ensures t == SortByDistance(ns)
  {
    SortSorted(ns);
    SortedStableUnique(t, SortByDistance(ns));
  }

  /** The candidates ranked nearest first. */
  function Ranked(data: seq<Record>, input: seq<real>, params: LoanParameters): seq<Neighbour>
    requires |input| == 6
  {
    SortByDistance(Neighbours(Candidates(data, params), QueryVector(input, params.loanAmount)))
  }

  function Min(a: int, b: int): int {
    if a <= b then a else b
  }

  /** distances.slice(0, k): the first min(k, n) ranked entries. */
  function Nearest(data: seq<Record>, input: seq<real>, params: LoanParameters, k: nat): (r: seq<Neighbour>)
    requires |input| == 6
    ensures |r| == Min(k, |Candidates(data, params)|)
    ensures r == Ranked(data, input, params)[..|r|]
  {
    var ranked := Ranked(data, input, params);
    ranked[..Min(k, |ranked|)]
  }

  /** The number of entries with loan status 1. */
  function ApprovedCount(ns: seq<Neighbour>): (c: nat)
    ensures c <= |ns|
    ensures c == |set i | 0 <= i < |ns| && ns[i].status == 1|
  {
    if ns == [] then 0
    else
      var last := |ns| - 1;
      var prefix := ns[..last];
      var rest := ApprovedCount(prefix);
      assert (set i | 0 <= i < |prefix| && prefix[i].status == 1) == (set i | 0 <= i < last && ns[i].status == 1);
      assert (set i | 0 <= i < |ns| && ns[i].status == 1) ==
        (set i | 0 <= i < last && ns[i].status == 1) + (if ns[last].status == 1 then {last} else {});
      rest + (if ns[last].status == 1 then 1 else 0)
  }

  lemma DivideBounds(c: real, n: real, k: real)
    requires 0.0 <= c <= n && c <= k && k > 0.0
    ensures 0.0 <= c / k <= 1.0
    ensures c / k <= n / k
  {
    FractionBounds(c, k);
    assert n / k - c / k == (n - c) / k;
    DivNonNegative(n - c, k);
  }

  lemma DivNonNegative(a: real, w: real)
    requires a >= 0.0 && w > 0.0
    ensures a / w >= 0.0
  {
  }

  /** predictLoanApproval: 0.5 without data, otherwise the share of approved
      rows among the k nearest, counted against k itself. */
  function PredictLoanApproval(data: seq<Record>, input: seq<real>, params: LoanParameters, k: nat): (p: real)
    requires |input| == 6 && k > 0
    ensures data == [] ==> p == 0.5
    ensures data != [] ==> p == ApprovedCount(Nearest(data, input, params, k)) as real / k as real
    ensures 0.0 <= p <= 1.0
    ensures data != [] ==> p <= |Candidates(data, params)| as real / k as real
  {
    if |data| == 0 then 0.5
    else
      var nearest := Nearest(data, input, params, k);
      var c := ApprovedCount(nearest);
      DivideBounds(c as real, |Candidates(data, params)| as real, k as real);
      c as real / k as real
  }

  /** Every selected entry is no farther than every entry left out. */
  lemma NearestNoFarther(data: seq<Record>, input: seq<real>, params: LoanParameters, k: nat)
    requires |input| == 6
    ensures var ranked, m := Ranked(data, input, params), |Nearest(data, input, params, k)|;
      forall i, j :: 0 <= i < m <= j < |ranked| ==> ranked[i].distance <= ranked[j].distance
  {
    var ns := Neighbours(Candidates(data, params), QueryVector(input, params.loanAmount));
    SortSorted(ns);
  }

  /** Each selected entry stands for one candidate row: its distance and its
      status are that row's. */
  lemma NearestAreCandidates(data: seq<Record>, input: seq<real>, params: LoanParameters, k: nat)
    requires |input| == 6
    ensures var cands, q := Candidates(data, params), QueryVector(input, params.loanAmount);
      forall nb :: nb in Nearest(data, input, params, k) ==>
        nb.pos < |cands| && nb.status == cands[nb.pos].loanStatus &&
        nb.distance == SquaredDistance(q, RecordVector(cands[nb.pos]))
  {
    var cands, q := Candidates(data, params), QueryVector(input, params.loanAmount);
    var ns := Neighbours(cands, q);
    var nearest := Nearest(data, input, params, k);
    forall nb | nb in nearest
      ensures nb.pos < |cands| && nb.status == cands[nb.pos].loanStatus
      ensures nb.distance == SquaredDistance(q, RecordVector(cands[nb.pos]))
    {
      var i :| 0 <= i < |nearest| && nearest[i] == nb;
      assert nb == SortByDistance(ns)[i];
      assert nb in multiset(SortByDistance(ns));
      InMultiset(nb, ns);
    }
  }

  /** A candidate row identical to the applicant's profile makes the nearest
      entry one at distance zero. */
  lemma ExactMatchIsNearest(data: seq<Record>, input: seq<real>, params: LoanParameters, k: nat, r: Record)
    requires |input| == 6 && k > 0
    requires r in Candidates(data, params) && RawRecord(r) == RawQuery(input, params.loanAmount)
    ensures |Nearest(data, input, params, k)| > 0
    ensures Nearest(data, input, params, k)[0].distance == 0.0
  {
    var cands, q := Candidates(data, params), QueryVector(input, params.loanAmount);
    var ns := Neighbours(cands, q);
    var ranked := SortByDistance(ns);
    var j :| 0 <= j < |cands| && cands[j] == r;
    ZeroDistanceIffSameProfile(input, params.loanAmount, r);
    assert ns[j].distance == 0.0;
    assert ns[j] in multiset(ranked);
    InMultiset(ns[j], ranked);
    var t :| 0 <= t < |ranked| && ranked[t] == ns[j];
    SortSorted(ns);
    assert ranked[0].distance <= 0.0 by {
      if t > 0 { assert Before(ranked[0], ranked[t]); }
    }
    assert ranked[0] in multiset(ns);
    InMultiset(ranked[0], ns);
  }

  /** With k = 15 the estimate is 0.5 only without data: c / 15 is never
      one half. */
  lemma HalfOnlyWithoutData(data: seq<Record>, input: seq<real>, params: LoanParameters)
    requires |input| == 6
    ensures PredictLoanApproval(data, input, params, K) == 0.5 <==> data == []
  {
    if data != [] {
      NotHalfOfFifteen(ApprovedCount(Nearest(data, input, params, K)));
    }
  }

  /** No whole number of fifteenths is one half. */
  lemma NotHalfOfFifteen(c: int)
    ensures c as real / 15.0 != 0.5
  {
    if c <= 7 {
      assert c as real / 15.0 <= 7.0 / 15.0;
    } else {
      assert c as real / 15.0 >= 8.0 / 15.0;
    }
  }

  /** What the prediction panel shows. */
  datatype PredictionView = PredictionView(percentage: int, approved: bool)

  function Present(p: real): (v: PredictionView)
    ensures 0.0 <= p <= 1.0 ==> 0 <= v.percentage <= 100
    ensures v.approved <==> p >= 0.5
    ensures v.percentage as real - 0.5 <= p * 100.0 < v.percentage as real + 0.5
  {
    PredictionView(Round(p * 100.0), p >= 0.5)
  }

  /** For a vote out of 15 the percentage and the label agree: the label
      says approved exactly when at least 50 % is shown. */
  lemma LabelAgreesWithPercentage(c: nat)
    requires c <= K
    ensures Present(c as real / K as real).approved <==> Present(c as real / K as real).percentage >= 50
  {
    var p := c as real / 15.0;
    if c <= 7 {
      assert p * 100.0 <= 700.0 / 15.0;
    } else {
      assert p * 100.0 >= 800.0 / 15.0;
    }
  }

  /** parseFloat(text) as the model receives it. */
  datatype Parsed = NaN | Number(value: real)

  /** parseFloat(text) || fallback: NaN and 0 are falsy. */
  function OrElse(p: Parsed, fallback: real): (r: real)
    ensures p.NaN? || p == Number(0.0) ==> r == fallback
    ensures p.Number? && p.value != 0.0 ==> r == p.value
  {
    if p.Number? && p.value != 0.0 then p.value else fallback
  }

  /** The loan form controls, each absent when its element is not on the page. */
  datatype LoanControls = LoanControls(productSelect: Option<string>, intentSelect: Option<string>, amountInput: Option<Parsed>)

  predicate Complete(controls: LoanControls) {
    controls.productSelect.Some? && controls.intentSelect.Some? && controls.amountInput.Some?
  }

  /** The loan parameters after updatePrediction: untouched without data or
      with a control missing, otherwise read back from the three controls. */
  function RefreshedParameters(data: seq<Record>, lp: LoanParameters, controls: LoanControls): (r: LoanParameters)
    ensures data == [] || !Complete(controls) ==> r == lp
    ensures data != [] && Complete(controls) ==>
      r.productType == controls.productSelect.value && r.loanIntent == controls.intentSelect.value && r.loanAmount != 0.0
  {
    if data != [] && Complete(controls) then
      LoanParameters(controls.productSelect.value, controls.intentSelect.value,
                     OrElse(controls.amountInput.value, FallbackLoanAmount))
    else lp
  }

  /** The panel contents after updatePrediction: none without data. */
  function PredictionDisplay(data: seq<Record>, values: seq<real>, lp: LoanParameters): (v: Option<PredictionView>)
    requires |values| == 6
    ensures data == [] <==> v.None?
    ensures v.Some? ==> v.value == Present(PredictLoanApproval(data, values, lp, K))
    ensures v.Some? ==> 0 <= v.value.percentage <= 100
  {
    if data == [] then None else Some(Present(PredictLoanApproval(data, values, lp, K)))
  }

  /** updatePrediction: refresh the loan parameters from the form, then
      recompute the estimate for the manual profile. */
  method UpdatePrediction(s: State, controls: LoanControls) returns (view: Option<PredictionView>)
    requires s.Valid()
    modifies s`loanParameters
    ensures s.Valid()
    ensures s.loanParameters == RefreshedParameters(s.customerData, old(s.loanParameters), controls)
    ensures view == PredictionDisplay(s.customerData, s.values[..], s.loanParameters)
  {
    if |s.customerData| == 0 {
      return None;
    }
    if Complete(controls) {
      s.loanParameters := LoanParameters(controls.productSelect.value, controls.intentSelect.value,
                                         OrElse(controls.amountInput.value, FallbackLoanAmount));
    }
    var p := PredictLoanApproval(s.customerData, s.values[..], s.loanParameters, K);
    view := Some(Present(p));
  }

  /** The product-type select's change handler. */
  method OnProductTypeChange(s: State, controls: LoanControls) returns (view: Option<PredictionView>)
    requires s.Valid() && controls.productSelect.Some?
    modifies s`loanParameters
    ensures s.Valid()
    ensures s.loanParameters ==
      RefreshedParameters(s.customerData, old(s.loanParameters).(productType := controls.productSelect.value), controls)
    ensures view == PredictionDisplay(s.customerData, s.values[..], s.loanParameters)
  {
    s.loanParameters := s.loanParameters.(productType := controls.productSelect.value);
    view := UpdatePrediction(s, controls);
  }

  /** The loan-intent select's change handler. */
  method OnLoanIntentChange(s: State, controls: LoanControls) returns (view: Option<PredictionView>)
    requires s.Valid() && controls.intentSelect.Some?
    modifies s`loanParameters
    ensures s.Valid()
    ensures s.loanParameters ==
      RefreshedParameters(s.customerData, old(s.loanParameters).(loanIntent := controls.intentSelect.value), controls)
    ensures view == PredictionDisplay(s.customerData, s.values[..], s.loanParameters)
  {
    s.loanParameters := s.loanParameters.(loanIntent := controls.intentSelect.value);
    view := UpdatePrediction(s, controls);
  }

  /** The amount field's input handler: NaN and 0 are stored as 0. */
  method OnLoanAmountInput(s: State, controls: LoanControls) returns (view: Option<PredictionView>)
    requires s.Valid() && controls.amountInput.Some?
    modifies s`loanParameters
    ensures s.Valid()
    ensures s.loanParameters ==
      RefreshedParameters(s.customerData, old(s.loanParameters).(loanAmount := OrElse(controls.amountInput.value, 0.0)), controls)
    ensures view == PredictionDisplay(s.customerData, s.values[..], s.loanParameters)
  {
    s.loanParameters := s.loanParameters.(loanAmount := OrElse(controls.amountInput.value, 0.0));
    view := UpdatePrediction(s, controls);
  }

  /** The amount field's blur handler: NaN and 0 become 50000, which is also
      written back into the field. */
  method OnLoanAmountBlur(s: State, controls: LoanControls) returns (fieldValue: real, view: Option<PredictionView>)
    requires s.Valid() && controls.amountInput.Some?
    modifies s`loanParameters
    ensures s.Valid()
    ensures fieldValue == OrElse(controls.amountInput.value, FallbackLoanAmount)
    ensures s.loanParameters ==
      RefreshedParameters(s.customerData, old(s.loanParameters).(loanAmount := fieldValue),
                          controls.(amountInput := Some(Number(fieldValue))))
    ensures view == PredictionDisplay(s.customerData, s.values[..], s.loanParameters)
  {
    fieldValue := OrElse(controls.amountInput.value, FallbackLoanAmount);
    s.loanParameters := s.loanParameters.(loanAmount := fieldValue);
    view := UpdatePrediction(s, controls.(amountInput := Some(Number(fieldValue))));
  }

  /** The input handler's fallback of 0 survives only while no data is
      loaded or a control is missing: otherwise the refresh that follows
      reads the same field again and stores 50000. */
  lemma AmountInputFallback(data: seq<Record>, lp: LoanParameters, controls: LoanControls)
    requires controls.amountInput.Some?
    ensures var stored := lp.(loanAmount := OrElse(controls.amountInput.value, 0.0));
      var after := RefreshedParameters(data, stored, controls).loanAmount;
      && (data == [] || !Complete(controls) ==> after == OrElse(controls.amountInput.value, 0.0))
      && (data != [] && Complete(controls) ==> after == OrElse(controls.amountInput.value, FallbackLoanAmount))
  {
  }

  /** After blur the stored amount is the value written into the field,
      whether or not the refresh rereads it. */
  lemma AmountBlurSettles(data: seq<Record>, lp: LoanParameters, controls: LoanControls)
    requires controls.amountInput.Some?
    ensures var v := OrElse(controls.amountInput.value, FallbackLoanAmount);
      RefreshedParameters(data, lp.(loanAmount := v), controls.(amountInput := Some(Number(v)))).loanAmount == v
  {
  }

  /** The initial loan amount is the fallback amount. */
  lemma InitialAmountIsFallback()
    ensures InitialLoanParameters.loanAmount == FallbackLoanAmount
    ensures InitialLoanParameters.productType == "Credit Card" && InitialLoanParameters.loanIntent == "Business"
  {
  }
}
