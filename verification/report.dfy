/** The `__main__` block of main.py: the fixed language dictionary, the
    HeadHunter loop and its table, then the SuperJob loop over the same
    dictionary and its table. The fetchers' results are parameters, aligned
    with the language order: `hhListings[k]` and `sjListings[k]` hold the
    listings of the `k`-th language, `hhFound[k]` and `sjFound[k]` the total
    each service reports for it. */
module Report {
  import opened Salary
  import opened Aggregation
  import opened Statistic

  const PopularLanguages: seq<string> :=
    ["JavaScript", "Java", "Python", "Ruby", "PHP", "C++", "C#", "Scala", "Go", "Swift"]

  const HeadHunterTitle: string := "HeadHunter Moscow"
  const SuperJobTitle: string := "SuperJob Moscow"

  /** The fixed language list has ten distinct entries. */
  lemma PopularLanguagesDistinct()
    ensures |PopularLanguages| == 10 && Distinct(PopularLanguages)
  {
  }

  /** `popular_langs` as first written: every language mapped to `0`, in the
      order given. */
  function InitialLanguages(langs: seq<string>): (popular: Languages)
    requires Distinct(langs)
    ensures popular.Valid() && popular.order == langs
    ensures forall k :: k in popular.values ==> popular.values[k] == Count(0)
  {
    Languages(langs, map k | k in langs :: Count(0))
  }

  /** One source's block of the corrected program: the aggregation loop,
      then the table of the dictionary it leaves. `listings[k]` and
      `found[k]` are what the fetchers return for the `k`-th language. */
  method SourceReport(title: string, src: Source, popular: Languages, listings: seq<seq<Vacancy>>, found: seq<int>)
    returns (langs: Languages, table: Table)
    requires popular.Valid() && |listings| == |found| == |popular.order|
    ensures langs.Valid() && langs.order == popular.order
    ensures table.title == title && |table.rows| == |popular.order| + 1 && table.rows[0] == Header
    ensures forall k :: 0 <= k < |popular.order| ==>
              table.rows[k + 1] == SummaryRow(popular.order[k], SummaryOf(src, listings[k], found[k]))
  {
    langs := Aggregate(src, popular, listings, found);
    table := BuildTable(title, langs);
  }

  /** The corrected program over the language list `langs` (in main.py, the
      ten `PopularLanguages`): two titled tables, HeadHunter's then
      SuperJob's, each with the header and then one row per language in
      order, each row holding that source's own figures. */
  method Report(langs: seq<string>, hhListings: seq<seq<Vacancy>>, hhFound: seq<int>,
                sjListings: seq<seq<Vacancy>>, sjFound: seq<int>)
    returns (hh: Table, sj: Table)
    requires Distinct(langs)
    requires |hhListings| == |hhFound| == |sjListings| == |sjFound| == |langs|
    ensures hh.title == HeadHunterTitle && sj.title == SuperJobTitle
    ensures |hh.rows| == |sj.rows| == |langs| + 1
    ensures hh.rows[0] == Header && sj.rows[0] == Header
    ensures forall k :: 0 <= k < |langs| ==>
              hh.rows[k + 1] == SummaryRow(langs[k], SummaryOf(HeadHunter, hhListings[k], hhFound[k]))
    ensures forall k :: 0 <= k < |langs| ==>
              sj.rows[k + 1] == SummaryRow(langs[k], SummaryOf(SuperJob, sjListings[k], sjFound[k]))
  {
    var popular := InitialLanguages(langs);
    popular, hh := SourceReport(HeadHunterTitle, HeadHunter, popular, hhListings, hhFound);
    popular, sj := SourceReport(SuperJobTitle, SuperJob, popular, sjListings, sjFound);
  }

  /** One source's block as written: the aggregation loop, which may raise
      `NameError`, then the table of the dictionary it leaves. */
  method SourceReportAsWritten(title: string, src: Source, popular: Languages, listings: seq<seq<Vacancy>>,
                               found: seq<int>, carried: Option<real>)
    returns (out: Outcome, table: Table)
    requires popular.Valid() && |listings| == |found| == |popular.order|
    ensures out.NameError? <==>
              |popular.order| > 0 && carried.None? && |Estimates(src, listings[0])| == 0
    ensures out.NameError? ==> out.lang == popular.order[0]
    ensures out.Done? ==> out.langs.Valid() && out.langs.order == popular.order &&
                          out.average == AverageAfter(src, listings, carried, |listings|)
    ensures out.Done? ==> table.title == title && |table.rows| == |popular.order| + 1 && table.rows[0] == Header
    ensures out.Done? ==> forall k :: 0 <= k < |popular.order| ==>
              table.rows[k + 1] == SummaryRow(popular.order[k], WrittenSummary(src, listings, found, carried, k))
  {
    out := AggregateAsWritten(src, popular, listings, found, carried);
    table := Table(title, []);
    if out.Done? {
      table := BuildTable(title, out.langs);
    }
  }

  /** What the program as written ends with: both tables, or the `NameError`
      raised in the HeadHunter loop before anything is printed. */
  datatype Run = Printed(hh: Table, sj: Table) | Crashed(lang: string)

  /** The program as written. It crashes exactly when the first language has
      no HeadHunter estimate. The SuperJob loop starts with the average the
      HeadHunter loop left behind, so it never crashes. */
  method ReportAsWritten(langs: seq<string>, hhListings: seq<seq<Vacancy>>, hhFound: seq<int>,
                         sjListings: seq<seq<Vacancy>>, sjFound: seq<int>)
    returns (run: Run)
    requires Distinct(langs)
    requires |hhListings| == |hhFound| == |sjListings| == |sjFound| == |langs|
    ensures run.Crashed? <==> |langs| > 0 && |Estimates(HeadHunter, hhListings[0])| == 0
    ensures run.Crashed? ==> run.lang == langs[0]
    ensures run.Printed? ==>
              run.hh.title == HeadHunterTitle && run.sj.title == SuperJobTitle &&
              |run.hh.rows| == |run.sj.rows| == |langs| + 1 &&
              run.hh.rows[0] == Header && run.sj.rows[0] == Header
    ensures run.Printed? ==> forall k :: 0 <= k < |langs| ==>
              run.hh.rows[k + 1] == SummaryRow(langs[k], WrittenSummary(HeadHunter, hhListings, hhFound, None, k))
    ensures run.Printed? ==> forall k :: 0 <= k < |langs| ==>
              run.sj.rows[k + 1] ==
              SummaryRow(langs[k], WrittenSummary(SuperJob, sjListings, sjFound,
                                                  AverageAfter(HeadHunter, hhListings, None, |langs|), k))
  {
    var popular := InitialLanguages(langs);
    var hhOut, hh := SourceReportAsWritten(HeadHunterTitle, HeadHunter, popular, hhListings, hhFound, None);
    if hhOut.NameError? {
      return Crashed(hhOut.lang);
    }
    if |langs| > 0 {
      AverageAfterDefined(HeadHunter, hhListings, None, |langs|);
    }
    var sjOut, sj := SourceReportAsWritten(SuperJobTitle, SuperJob, hhOut.langs, sjListings, sjFound, hhOut.average);
    run := Printed(hh, sj);
  }

  /** Counterexample for the unassigned average: a first language whose only
      listing is priced in dollars leaves `average_salary` unassigned, so the
      program as written raises `NameError` (see `ReportAsWritten`); the
      corrected program reports no average for it instead. */
  lemma NameErrorOnFirstLanguage(found: int)
    ensures |Estimates(HeadHunter, [Vacancy("USD", Some(3000), None)])| == 0
    ensures SummaryOf(HeadHunter, [Vacancy("USD", Some(3000), None)], found) == Summary(found, 0, None)
  {
    var usd := [Vacancy("USD", Some(3000), None)];
    assert usd[..0] == [];
    assert Estimates(HeadHunter, usd) == [];
  }

  /** Counterexample for the stale average: the first language has one
      listing of 100000 to 200000 rubles and the second has none. As written,
      the second reports the first one's 150000 with zero listings processed;
      corrected, it reports no average. */
  lemma StaleAverageExample(found: seq<int>)
    requires |found| == 2
    ensures WrittenSummary(HeadHunter, [[Vacancy(HeadHunterRuble, Some(100000), Some(200000))], []], found, None, 1) ==
            Summary(found[1], 0, Some(150000))
    ensures SummaryOf(HeadHunter, [], found[1]) == Summary(found[1], 0, None)
  {
    var js := [Vacancy(HeadHunterRuble, Some(100000), Some(200000))];
    var ls := [js, []];
    assert AverageAfter(HeadHunter, ls, None, 0) == None;
    assert Estimates(HeadHunter, []) == [];
    assert js[..0] == [];
    assert Estimate(HeadHunter, js[0]) == Some(150000.0);
    assert Estimates(HeadHunter, js) == [150000.0];
    assert Sum([150000.0]) == 150000.0 by { assert [150000.0][..0] == []; }
    assert AverageAfter(HeadHunter, ls, None, 1) == Some(150000.0);
    assert Estimates(HeadHunter, ls[1]) == [];
    assert AverageAfter(HeadHunter, ls, None, 2) == Some(150000.0);
    assert Trunc(150000.0) == 150000;
  }
}
