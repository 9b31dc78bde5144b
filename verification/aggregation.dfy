/** The per-language aggregation loop that `__main__` in main.py runs once per
    source: collect the truthy estimates, count them, average them, and store
    a summary under the language's key. */
module Aggregation {
  import opened Salary

  // ---------------------------------------------------------------------
  // Collecting the estimates of one language
  // ---------------------------------------------------------------------

  /** The truthy estimates of `vs`, in listing order. */
  function Estimates(src: Source, vs: seq<Vacancy>): (r: seq<real>)
    ensures |r| <= |vs|
  {
    if vs == [] then []
    else
      var e := Estimate(src, vs[|vs| - 1]);
      Estimates(src, vs[..|vs| - 1]) + (if Truthy(e) then [e.value] else [])
  }

  /** The positions of the listings whose estimate is truthy, in listing order. */
  function Kept(src: Source, vs: seq<Vacancy>): seq<nat> {
    if vs == [] then []
    else Kept(src, vs[..|vs| - 1]) + (if Truthy(Estimate(src, vs[|vs| - 1])) then [|vs| - 1] else [])
  }

  /** The collected list is exactly the estimates of the truthy listings, one
      per such listing, in listing order: so its length, `vacancies_processed`,
      is the number of listings with a truthy estimate. */
  lemma {:induction false} EstimatesFollowKept(src: Source, vs: seq<Vacancy>)
    ensures |Kept(src, vs)| == |Estimates(src, vs)|
    ensures forall k :: 0 <= k < |Kept(src, vs)| ==>
              Kept(src, vs)[k] < |vs| && Truthy(Estimate(src, vs[Kept(src, vs)[k]])) &&
              Estimates(src, vs)[k] == Estimate(src, vs[Kept(src, vs)[k]]).value
    ensures forall k, l :: 0 <= k < l < |Kept(src, vs)| ==> Kept(src, vs)[k] < Kept(src, vs)[l]
    ensures forall i :: 0 <= i < |vs| && Truthy(Estimate(src, vs[i])) ==> i in Kept(src, vs)
  {
    if vs != [] {
      var init := vs[..|vs| - 1];
      EstimatesFollowKept(src, init);
      forall i | 0 <= i < |init| ensures init[i] == vs[i] { }
    }
  }

  /** Every collected estimate is non-zero, and non-negative when every
      listing has non-negative bounds. */
  lemma {:induction false} EstimatesSigns(src: Source, vs: seq<Vacancy>)
    ensures forall k :: 0 <= k < |Estimates(src, vs)| ==> Estimates(src, vs)[k] != 0.0
    ensures (forall i :: 0 <= i < |vs| ==> NonNegativeBounds(vs[i])) ==>
              forall k :: 0 <= k < |Estimates(src, vs)| ==> Estimates(src, vs)[k] > 0.0
  {
    if vs != [] {
      var init := vs[..|vs| - 1];
      EstimatesSigns(src, init);
      var v := vs[|vs| - 1];
      if forall i :: 0 <= i < |vs| ==> NonNegativeBounds(vs[i]) {
        assert NonNegativeBounds(v);
        NonNegativeEstimate(v.from, v.to);
        assert forall i :: 0 <= i < |init| ==> init[i] == vs[i];
      }
    }
  }

  predicate NonNegativeBounds(v: Vacancy) {
    (v.from.Some? ==> v.from.value >= 0) && (v.to.Some? ==> v.to.value >= 0)
  }

  /** The inner `for vacancy in vacancies` loop: append each truthy estimate. */
  method CollectSalaries(src: Source, vacancies: seq<Vacancy>) returns (salaries: seq<real>)
    ensures salaries == Estimates(src, vacancies)
  {
    salaries := [];
    var i := 0;
    while i < |vacancies|
      invariant 0 <= i <= |vacancies|
      invariant salaries == Estimates(src, vacancies[..i])
    {
      assert vacancies[..i + 1][..i] == vacancies[..i];
      var e := Estimate(src, vacancies[i]);
      if Truthy(e) {
        salaries := salaries + [e.value];
      }
      i := i + 1;
    }
    assert vacancies[..i] == vacancies;
  }

  // ---------------------------------------------------------------------
  // Averaging
  // ---------------------------------------------------------------------

  /** Python's `sum`, left to right. */
  function Sum(s: seq<real>): real {
    if s == [] then 0.0 else Sum(s[..|s| - 1]) + s[|s| - 1]
  }

  /** `sum(s) / len(s)`. */
  function Mean(s: seq<real>): real
    requires |s| > 0
  {
    Sum(s) / |s| as real
  }

  /** Python's `int()` on a number: truncation toward zero. */
  function Trunc(x: real): (r: int)
    ensures 0.0 <= x ==> 0 <= r && r as real <= x < r as real + 1.0
    ensures x < 0.0 ==> r <= 0 && r as real - 1.0 < x <= r as real
  {
    if x >= 0.0 then x.Floor else -((-x).Floor)
  }

  /** The largest element. */
  function Max(s: seq<real>): (m: real)
    requires |s| > 0
    ensures m in s
    ensures forall i :: 0 <= i < |s| ==> s[i] <= m
  {
    if |s| == 1 then s[0]
    else
      var m := Max(s[..|s| - 1]);
      assert forall i :: 0 <= i < |s| - 1 ==> s[..|s| - 1][i] == s[i];
      if s[|s| - 1] > m then s[|s| - 1] else m
  }

  lemma {:induction false} SumBounds(s: seq<real>, lo: real, hi: real)
    requires forall i :: 0 <= i < |s| ==> lo <= s[i] <= hi
    ensures |s| as real * lo <= Sum(s) <= |s| as real * hi
  {
    if s != [] {
      var init := s[..|s| - 1];
      assert forall i :: 0 <= i < |init| ==> init[i] == s[i];
      SumBounds(init, lo, hi);
      assert |s| as real * lo == |init| as real * lo + lo;
      assert |s| as real * hi == |init| as real * hi + hi;
    }
  }

  /** The mean lies between any lower and upper bound of the elements. */
  lemma MeanBounds(s: seq<real>, lo: real, hi: real)
    requires |s| > 0
    requires forall i :: 0 <= i < |s| ==> lo <= s[i] <= hi
    ensures lo <= Mean(s) <= hi
  {
    SumBounds(s, lo, hi);
  }

  /** The corrected `average_salary`: the truncated mean of the collected
      estimates, or nothing when none was collected. */
  function AverageSalary(salaries: seq<real>): (r: Option<int>)
    ensures r.Some? <==> |salaries| > 0
  {
    if |salaries| == 0 then None else Some(Trunc(Mean(salaries)))
  }

  /** With non-negative estimates the average is non-negative and no larger
      than the largest estimate. */
  lemma AverageWithinEstimates(salaries: seq<real>)
    requires |salaries| > 0
    requires forall i :: 0 <= i < |salaries| ==> salaries[i] >= 0.0
    ensures 0 <= AverageSalary(salaries).value
    ensures AverageSalary(salaries).value as real <= Max(salaries)
  {
    MeanBounds(salaries, 0.0, Max(salaries));
  }

  /** Listings whose bounds are non-negative, at least one of them with an
      estimate: the average of the processed listings is non-negative and
      bounded by the largest estimate. */
  lemma ProcessedAverageBounds(src: Source, vs: seq<Vacancy>)
    requires forall i :: 0 <= i < |vs| ==> NonNegativeBounds(vs[i])
    requires |Estimates(src, vs)| > 0
    ensures 0 <= AverageSalary(Estimates(src, vs)).value
    ensures AverageSalary(Estimates(src, vs)).value as real <= Max(Estimates(src, vs))
  {
    EstimatesSigns(src, vs);
    AverageWithinEstimates(Estimates(src, vs));
  }

  // ---------------------------------------------------------------------
  // The language dictionary
  // ---------------------------------------------------------------------

  datatype Summary = Summary(found: int, processed: nat, average: Option<int>)

  /** A value of `popular_langs`: the initial `0` or a summary record. */
  datatype Entry = Count(n: int) | Stats(summary: Summary)

  /** The insertion-ordered dictionary `popular_langs`: its keys in order and
      its key-to-value mapping. */
  datatype Languages = Languages(order: seq<string>, values: map<string, Entry>) {
    ghost predicate Valid() {
      Distinct(order) && forall k :: k in values <==> k in order
    }
  }

  predicate Distinct(s: seq<string>) {
    forall i, j :: 0 <= i < j < |s| ==> s[i] != s[j]
  }

  /** The summary the corrected loop stores for one language. */
  function SummaryOf(src: Source, listings: seq<Vacancy>, found: int): Summary {
    var salaries := Estimates(src, listings);
    Summary(found, |salaries|, AverageSalary(salaries))
  }

  /** The corrected loop. `listings[k]` and `found[k]` are what the two
      fetchers return for the `k`-th language. Every key keeps its place and
      receives the summary of its own listings, with no average when nothing
      was processed. */
  method Aggregate(src: Source, popular: Languages, listings: seq<seq<Vacancy>>, found: seq<int>)
    returns (result: Languages)
    requires popular.Valid() && |listings| == |found| == |popular.order|
    ensures result.Valid() && result.order == popular.order
    ensures forall k :: 0 <= k < |popular.order| ==>
              result.values[popular.order[k]] == Stats(SummaryOf(src, listings[k], found[k]))
  {
    var order := popular.order;
    var values := popular.values;
    var i := 0;
    while i < |order|
      invariant 0 <= i <= |order|
      invariant values.Keys == popular.values.Keys
      invariant forall k :: 0 <= k < i ==> values[order[k]] == Stats(SummaryOf(src, listings[k], found[k]))
    {
      var lang := order[i];
      var salaries := CollectSalaries(src, listings[i]);
      values := values[lang := Stats(Summary(found[i], |salaries|, AverageSalary(salaries)))];
      i := i + 1;
    }
    result := Languages(order, values);
  }

  // ---------------------------------------------------------------------
  // The loop as written: `average_salary` survives from one language to
  // the next, and from one source's loop into the other's
  // ---------------------------------------------------------------------

  /** The body of the loop as written, up to the summary: collect the
      truthy estimates and, only if there are any, overwrite `average_salary`
      with their mean; otherwise it keeps the value it had. */
  method CollectAndAverage(src: Source, vacancies: seq<Vacancy>, average: Option<real>)
    returns (processed: nat, next: Option<real>)
    ensures processed == |Estimates(src, vacancies)|
    ensures processed > 0 ==> next == Some(Mean(Estimates(src, vacancies)))
    ensures processed == 0 ==> next == average
  {
    var salaries := CollectSalaries(src, vacancies);
    processed := |salaries|;
    next := average;
    if |salaries| > 0 {
      next := Some(Mean(salaries));
    }
  }

  /** What the loop produces: the updated dictionary and the final value of
      the `average_salary` variable, or the `NameError` raised when that
      variable was never assigned. */
  datatype Outcome = Done(langs: Languages, average: Option<real>) | NameError(lang: string)

  /** The value of `average_salary` after the first `k` languages: the mean
      of the last of them that had estimates, else what it held before. */
  function AverageAfter(src: Source, listings: seq<seq<Vacancy>>, carried: Option<real>, k: nat): (r: Option<real>)
    requires k <= |listings|
    ensures carried.Some? ==> r.Some?
  {
    if k == 0 then carried
    else
      var salaries := Estimates(src, listings[k - 1]);
      if |salaries| > 0 then Some(Mean(salaries)) else AverageAfter(src, listings, carried, k - 1)
  }

  lemma AverageAfterStep(src: Source, listings: seq<seq<Vacancy>>, carried: Option<real>, i: nat)
    requires i < |listings|
    ensures var salaries := Estimates(src, listings[i]);
            AverageAfter(src, listings, carried, i + 1) ==
            if |salaries| > 0 then Some(Mean(salaries)) else AverageAfter(src, listings, carried, i)
  {
  }

  /** Once some language had estimates, `average_salary` stays assigned. */
  lemma {:induction false} AverageAfterDefined(src: Source, listings: seq<seq<Vacancy>>, carried: Option<real>, k: nat)
    requires 0 < k <= |listings|
    requires carried.Some? || |Estimates(src, listings[0])| > 0
    ensures AverageAfter(src, listings, carried, k).Some?
  {
    if k > 1 {
      AverageAfterDefined(src, listings, carried, k - 1);
    }
  }

  /** The summary the loop as written stores for the `k`-th language: its own
      counts, and whatever `average_salary` holds after it, truncated. */
  function WrittenSummary(src: Source, listings: seq<seq<Vacancy>>, found: seq<int>, carried: Option<real>, k: nat): Summary
    requires k < |listings| == |found|
  {
    var average := AverageAfter(src, listings, carried, k + 1);
    Summary(found[k], |Estimates(src, listings[k])|,
            if average.Some? then Some(Trunc(average.value)) else None)
  }

  /** The loop as written. It raises `NameError` exactly when nothing was
      averaged before and the first language has no estimate; otherwise every
      key keeps its place and receives its own count, its number of processed
      listings and the truncated value `average_salary` holds at that point. */
  method AggregateAsWritten(src: Source, popular: Languages, listings: seq<seq<Vacancy>>, found: seq<int>, carried: Option<real>)
    returns (out: Outcome)
    requires popular.Valid() && |listings| == |found| == |popular.order|
    ensures out.NameError? <==>
              |popular.order| > 0 && carried.None? && |Estimates(src, listings[0])| == 0
    ensures out.NameError? ==> out.lang == popular.order[0]
    ensures out.Done? ==> out.langs.Valid() && out.langs.order == popular.order
    ensures out.Done? ==> out.average == AverageAfter(src, listings, carried, |listings|)
    ensures out.Done? ==> forall k :: 0 <= k < |popular.order| ==>
              out.langs.values[popular.order[k]] == Stats(WrittenSummary(src, listings, found, carried, k))
  {
    var order := popular.order;
    var values := popular.values;
    var average := carried;
    var i := 0;
    while i < |order|
      invariant 0 <= i <= |order|
      invariant average == AverageAfter(src, listings, carried, i)
      invariant i > 0 ==> carried.Some? || |Estimates(src, listings[0])| > 0
      invariant values.Keys == popular.values.Keys
      invariant forall k :: 0 <= k < i ==> values[order[k]] == Stats(WrittenSummary(src, listings, found, carried, k))
    {
      var lang := order[i];
      var processed;
      AverageAfterStep(src, listings, carried, i);
      processed, average := CollectAndAverage(src, listings[i], average);
      if average.None? {
        if i > 0 {
          AverageAfterDefined(src, listings, carried, i + 1);
        }
        return NameError(lang);
      }
      var summary := Summary(found[i], processed, Some(Trunc(average.value)));
      assert summary == WrittenSummary(src, listings, found, carried, i);
      values := values[lang := Stats(summary)];
      i := i + 1;
    }
    out := Done(Languages(order, values), average);
  }

  /** When the loop as written completes, every language gets an average,
      even those that processed nothing. */
  lemma WrittenAverageAlwaysSet(src: Source, listings: seq<seq<Vacancy>>, found: seq<int>, carried: Option<real>, k: nat)
    requires k < |listings| == |found|
    requires carried.Some? || |Estimates(src, listings[0])| > 0
    ensures WrittenSummary(src, listings, found, carried, k).average.Some?
  {
    AverageAfterDefined(src, listings, carried, k + 1);
  }

  /** The defect: a language with no estimate repeats the average the
      language before it reported, although it processed nothing. */
  lemma StaleAverageRepeated(src: Source, listings: seq<seq<Vacancy>>, found: seq<int>, carried: Option<real>, k: nat)
    requires 0 < k < |listings| == |found|
    requires |Estimates(src, listings[k])| == 0
    ensures WrittenSummary(src, listings, found, carried, k).processed == 0
    ensures WrittenSummary(src, listings, found, carried, k).average ==
            WrittenSummary(src, listings, found, carried, k - 1).average
  {
  }

  /** Where a language does have estimates, the loop as written agrees with
      the corrected one. */
  lemma WrittenAgreesWhenProcessed(src: Source, listings: seq<seq<Vacancy>>, found: seq<int>, carried: Option<real>, k: nat)
    requires k < |listings| == |found|
    requires |Estimates(src, listings[k])| > 0
    ensures WrittenSummary(src, listings, found, carried, k) == SummaryOf(src, listings[k], found[k])
  {
  }
}
