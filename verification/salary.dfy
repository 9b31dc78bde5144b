/** The salary estimator and the two per-source currency gates of main.py. */
module Salary {

  datatype Option<T> = None | Some(value: T)

  /** Python truthiness of an optional salary bound: `None` and `0` are both absent. */
  predicate Present(bound: Option<int>) {
    bound.Some? && bound.value != 0
  }

  /** Python truthiness of an estimate: no estimate and `0.0` are both falsy. */
  predicate Truthy(estimate: Option<real>) {
    estimate.Some? && estimate.value != 0.0
  }

  /** `predict_salary`: the mean of both bounds, else the lower bound inflated
      by 1.2, else the upper bound discounted by 0.8, else nothing. The
      multipliers are exact rationals (6/5 and 4/5), not binary floats. */
  function PredictSalary(from: Option<int>, to: Option<int>): (r: Option<real>)
    ensures r.Some? <==> Present(from) || Present(to)
    ensures Present(from) && Present(to) ==> r.value == (from.value + to.value) as real / 2.0
    ensures Present(from) && !Present(to) ==> r.value == from.value as real * 1.2
    ensures !Present(from) && Present(to) ==> r.value == to.value as real * 0.8
  {
    if Present(from) && Present(to) then Some((from.value + to.value) as real / 2.0)
    else if Present(from) then Some(from.value as real * 1.2)
    else if Present(to) then Some(to.value as real * 0.8)
    else None
  }

  /** With both bounds present and in order, the estimate lies between them. */
  lemma MeanBetweenBounds(from: int, to: int)
    requires from != 0 && to != 0 && from <= to
    ensures PredictSalary(Some(from), Some(to)).Some?
    ensures from as real <= PredictSalary(Some(from), Some(to)).value <= to as real
  {
  }

  /** The heuristic inflates a lone positive lower bound and discounts a lone
      positive upper bound; a zero bound is treated exactly like a missing one,
      whatever the other bound is. */
  lemma LoneBoundsAreAdjusted(x: int, other: Option<int>)
    requires x > 0
    ensures PredictSalary(Some(x), None).value > x as real
    ensures PredictSalary(None, Some(x)).value < x as real
    ensures PredictSalary(Some(0), other) == PredictSalary(None, other)
    ensures PredictSalary(other, Some(0)) == PredictSalary(other, None)
  {
  }

  /** With non-negative bounds every estimate is non-negative, and it is
      truthy exactly when some bound is present. */
  lemma NonNegativeEstimate(from: Option<int>, to: Option<int>)
    requires from.Some? ==> from.value >= 0
    requires to.Some? ==> to.value >= 0
    ensures PredictSalary(from, to).Some? ==> PredictSalary(from, to).value >= 0.0
    ensures Truthy(PredictSalary(from, to)) <==> Present(from) || Present(to)
  {
  }

  /** The worked figures: 100000..200000 gives 150000, 100000 alone gives
      120000, 200000 alone gives 160000. */
  lemma WorkedFigures()
    ensures PredictSalary(Some(100000), Some(200000)) == Some(150000.0)
    ensures PredictSalary(Some(100000), None) == Some(120000.0)
    ensures PredictSalary(None, Some(200000)) == Some(160000.0)
    ensures PredictSalary(None, None) == None
  {
  }

  /** A fetched listing: its currency code and its optional salary bounds
      (`salary.currency/from/to` at HeadHunter, `currency`,
      `payment_from/payment_to` at SuperJob). */
  datatype Vacancy = Vacancy(currency: string, from: Option<int>, to: Option<int>)

  datatype Source = HeadHunter | SuperJob

  const HeadHunterRuble: string := "RUR"
  const SuperJobRuble: string := "rub"

  /** `predict_rub_salary_hh`: a listing not priced in "RUR" gets no estimate. */
  function PredictRubSalaryHh(v: Vacancy): (r: Option<real>)
    ensures v.currency != HeadHunterRuble ==> r == None
    ensures v.currency == HeadHunterRuble ==> r == PredictSalary(v.from, v.to)
  {
    if v.currency != HeadHunterRuble then None else PredictSalary(v.from, v.to)
  }

  /** `predict_rub_salary_sj`: a listing not priced in "rub" gets no estimate. */
  function PredictRubSalarySj(v: Vacancy): (r: Option<real>)
    ensures v.currency != SuperJobRuble ==> r == None
    ensures v.currency == SuperJobRuble ==> r == PredictSalary(v.from, v.to)
  {
    if v.currency != SuperJobRuble then None else PredictSalary(v.from, v.to)
  }

  /** The estimator of the given source. */
  function Estimate(src: Source, v: Vacancy): Option<real> {
    match src
    case HeadHunter => PredictRubSalaryHh(v)
    case SuperJob => PredictRubSalarySj(v)
  }

  /** The ruble codes are compared exactly: one source's code is foreign to the other. */
  lemma CodesAreSourceSpecific(from: Option<int>, to: Option<int>)
    ensures Estimate(SuperJob, Vacancy(HeadHunterRuble, from, to)) == None
    ensures Estimate(HeadHunter, Vacancy(SuperJobRuble, from, to)) == None
  {
  }
}
