/** The row data `print_vacancies_statistic` hands to the table renderer. */
module Statistic {
  import opened Salary
  import opened Aggregation

  /** One table cell: a label, a number, or nothing (an average that was
      never computed). */
  datatype Cell = Text(text: string) | Int(n: int) | Missing

  /** A four-column row: language, vacancies found, vacancies processed,
      average salary. */
  datatype Row = Row(language: Cell, found: Cell, processed: Cell, average: Cell)

  /** A titled table: the rows in display order. */
  datatype Table = Table(title: string, rows: seq<Row>)

  const Header: Row :=
    Row(Text("Язык программирования"), Text("Вакансий найдено"),
        Text("Вакансий обработано"), Text("Средняя зарплата"))

  /** The row of one language. */
  function SummaryRow(lang: string, s: Summary): (r: Row)
    ensures r.language == Text(lang) && r.found == Int(s.found) && r.processed == Int(s.processed)
    ensures s.average.Some? ==> r.average == Int(s.average.value)
    ensures s.average.None? ==> r.average == Missing
  {
    Row(Text(lang), Int(s.found), Int(s.processed),
        if s.average.Some? then Int(s.average.value) else Missing)
  }

  /** Every key of the dictionary holds a summary record. */
  ghost predicate Summarised(langs: Languages) {
    forall k :: 0 <= k < |langs.order| ==> langs.order[k] in langs.values && langs.values[langs.order[k]].Stats?
  }

  /** `print_vacancies_statistic` up to the rendering: the header, then one
      row per language in the dictionary's order. */
  method BuildTable(title: string, langs: Languages) returns (table: Table)
    requires langs.Valid() && Summarised(langs)
    ensures table.title == title
    ensures |table.rows| == |langs.order| + 1 && table.rows[0] == Header
    ensures forall k :: 0 <= k < |langs.order| ==>
              table.rows[k + 1] == SummaryRow(langs.order[k], langs.values[langs.order[k]].summary)
  {
    var rows := [Header];
    for i := 0 to |langs.order|
      invariant |rows| == i + 1 && rows[0] == Header
      invariant forall k :: 0 <= k < i ==>
                  rows[k + 1] == SummaryRow(langs.order[k], langs.values[langs.order[k]].summary)
    {
      var lang := langs.order[i];
      rows := rows + [SummaryRow(lang, langs.values[lang].summary)];
    }
    table := Table(title, rows);
  }
}
