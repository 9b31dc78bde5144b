# language-salary, modelled in Dafny

The program asks two job boards, HeadHunter and SuperJob, for Moscow programming vacancies in ten languages. It estimates a ruble salary for each listing from its optional lower and upper bounds, averages the estimates per language, and prints one table per board. This project models that core:

- `salary.dfy`, module `Salary`: the estimator `predict_salary` and the two currency gates `predict_rub_salary_hh` ("RUR") and `predict_rub_salary_sj` ("rub").
- `aggregation.dfy`, module `Aggregation`: the per-language loop of `__main__`, in two versions. The first collects the truthy estimates in listing order, counts them as `vacancies_processed`, averages and truncates them, and stores a summary under the language's key in the insertion-ordered `popular_langs` dictionary. That corrected version is `Aggregate`. The second, `AggregateAsWritten`, is the loop exactly as main.py has it, where `average_salary` survives from one language to the next.
- `statistic.dfy`, module `Statistic`: the rows that `print_vacancies_statistic` builds, a header and then one 4-cell row per language in dictionary order.
- `report.dfy`, module `Report`: the whole `__main__` block. It builds the language dictionary, runs the HeadHunter loop and table, then runs the SuperJob loop over the same dictionary and builds its table. The language list is a parameter; the fixed ten-language list of main.py is `PopularLanguages`.

Modelling choices:

- A salary bound is `Option<int>`. It is present when it is `Some(x)` with `x != 0`, because Python's truthiness test treats `0` like `None`.
- An estimate is kept only when it is truthy, so an estimate of exactly `0.0` is dropped too. This happens for the mean of `x` and `-x`.
- Arithmetic uses exact `real`: the literals 1.2 and 0.8 denote exactly 6/5 and 4/5 in Dafny. This is deliberate: binary floating point is not modelled.
- `int()` is modelled exactly, as truncation toward zero (`Trunc`).
- The fetchers' results are parameters, given as sequences aligned with the language order. `listings[k]` holds the listings of the k-th language and `found[k]` holds the total the board reports for it.

When a language has no estimate, the code does not do what it evidently intends, which is to report no average. The model follows the code:

- When a language has no estimate, the code does not produce an undefined average. Instead it re-reports the previous value of `average_salary`, or raises `NameError` if that variable was never assigned. `AggregateAsWritten` and `ReportAsWritten` model this behaviour.
- `Aggregate` and `Report` model the corrected behaviour, in which such a language has no average.

## Model

| member | source | states |
|---|---|---|
| `Salary.PredictSalary` | main.py:71-77 | An estimate exists iff some bound is truthy. Both bounds give their mean, which is checked first. Only the lower bound gives it times 1.2. Only the upper bound gives it times 0.8. |
| `Salary.MeanBetweenBounds` | main.py:72-73 | With both bounds present and from <= to, the estimate lies between from and to. |
| `Salary.LoneBoundsAreAdjusted` | main.py:71-77 | A lone positive lower bound is inflated and a lone positive upper bound is discounted. A zero bound, lower or upper, behaves exactly like a missing one, whatever the other bound is. |
| `Salary.NonNegativeEstimate` | main.py:71-77 | With non-negative bounds the estimate is non-negative, and it is truthy iff some bound is present. |
| `Salary.WorkedFigures` | main.py:71-77 | 100000..200000 gives 150000; 100000 alone gives 120000; 200000 alone gives 160000; no bounds give no estimate. |
| `Salary.PredictRubSalaryHh` | main.py:79-84 | A listing whose currency is not "RUR" gets no estimate whatever its bounds. Otherwise it gets the estimator's result on its bounds. |
| `Salary.PredictRubSalarySj` | main.py:86-91 | A listing whose currency is not "rub" gets no estimate whatever its bounds. Otherwise it gets the estimator's result on its bounds. |
| `Salary.CodesAreSourceSpecific` | main.py:79-91 | The HeadHunter ruble code is rejected by SuperJob's gate, and the SuperJob code is rejected by HeadHunter's gate. |
| `Aggregation.CollectSalaries` | main.py:134-137 | The inner loop returns exactly the truthy estimates of the listings, in listing order. |
| `Aggregation.EstimatesFollowKept` | main.py:134-144 | The k-th collected estimate belongs to the k-th listing with a truthy estimate. Those positions increase, and every truthy listing is among them. So `vacancies_processed` counts the truthy listings. |
| `Aggregation.EstimatesSigns` | main.py:135-137 | No collected estimate is zero. With non-negative bounds every collected estimate is positive. |
| `Aggregation.Trunc` | main.py:145 | `int()` truncates toward zero: the result lies on the zero side of the input, less than 1 away. |
| `Aggregation.SumBounds` | main.py:140 | The sum of n values between lo and hi lies between n*lo and n*hi. |
| `Aggregation.MeanBounds` | main.py:140 | `sum/len` lies between any lower and upper bound of the values. |
| `Aggregation.AverageSalary` | main.py:139-145 | Corrected average: defined iff at least one estimate was collected. |
| `Aggregation.AverageWithinEstimates` | main.py:139-145 | With non-negative estimates, the truncated average is >= 0 and <= the largest estimate. |
| `Aggregation.ProcessedAverageBounds` | main.py:133-145 | For listings with non-negative bounds and at least one estimate, the average is >= 0 and <= the largest estimate. |
| `Aggregation.Aggregate` | main.py:132-146 | Corrected loop: the dictionary keeps exactly its keys in their order. Each key gets its own found count, its processed count and its own average, or no average. |
| `Aggregation.CollectAndAverage` | main.py:134-140 | The loop body returns the number of collected estimates. It overwrites `average_salary` with their mean only if there is at least one; otherwise it leaves the old value. |
| `Aggregation.AverageAfterDefined` | main.py:139-140 | Once `average_salary` has been assigned, it stays assigned for every later language. |
| `Aggregation.AggregateAsWritten` | main.py:132-146 | Loop as written: it raises NameError iff nothing was averaged before and the first language has no estimate. Otherwise the keys keep their order, and each gets its counts and the truncated current `average_salary`. |
| `Aggregation.WrittenAverageAlwaysSet` | main.py:139-145 | When the loop as written completes, every language reports an average, including those that processed nothing. |
| `Aggregation.StaleAverageRepeated` | main.py:139-145 | As written, a language with no estimate reports processed 0 together with the previous language's average. |
| `Aggregation.WrittenAgreesWhenProcessed` | main.py:139-145 | As written, a language that has estimates reports the same summary as the corrected loop. |
| `Statistic.SummaryRow` | main.py:103-108 | A language's row holds its name, found count, processed count and average, in that order. |
| `Statistic.BuildTable` | main.py:93-109 | The table has the header row first, then one row per language, in dictionary order. |
| `Report.PopularLanguagesDistinct` | main.py:118-129 | The fixed language list has ten distinct names. |
| `Report.InitialLanguages` | main.py:118-129 | The initial dictionary is valid, keeps the given language order, and maps every language to 0. |
| `Report.SourceReport` | main.py:131-166 | Corrected per-source block, used for both the HeadHunter block and the SuperJob block: the dictionary keeps its keys in order. The table has the header and then one row per language, holding that language's own figures. |
| `Report.SourceReportAsWritten` | main.py:131-166 | Per-source block as written, used for both the HeadHunter block and the SuperJob block: it raises NameError under the same condition as the loop. Otherwise the table rows hold each language's counts and the current `average_salary`. |
| `Report.Report` | main.py:114-166 | Corrected program over a list of distinct languages: two titled tables, HeadHunter then SuperJob. Each has the header and then one row per language in order, holding that board's own figures. |
| `Report.ReportAsWritten` | main.py:114-166 | Program as written: it crashes iff the first language has no HeadHunter estimate. The SuperJob loop inherits HeadHunter's last average, so it never crashes. |
| `Report.NameErrorOnFirstLanguage` | main.py:139-145 | A first language with only a dollar-priced listing has no estimate, so the program as written crashes. The corrected program reports no average for it. |
| `Report.StaleAverageExample` | main.py:139-145 | If JavaScript has one 100000..200000 ruble listing and Java has none, Java reports 0 processed with average 150000 as written, and no average when corrected. |

## Left out

- The HTTP fetchers `get_count_vacancies_hh`, `get_vacancies_hh`, `get_count_vacancies_sj` and `get_vacancies_sj` (network I/O and fixed pagination). Their results are parameters, given as sequences aligned with the language order: `hhListings`/`hhFound` and `sjListings`/`sjFound` for `Report` and `ReportAsWritten`, and `listings`/`found` for the per-source members.
- Loading the SuperJob key through `load_dotenv` and `os.environ` (environment I/O).
- Rendering with `AsciiTable` and `print` (a third-party library and console output). The model stops at the row data and the title.
- `raise_for_status` failures, which are network error handling.
- Binary floating point. The multipliers 1.2 and 0.8 and the division in the mean are computed with exact rationals. Python's rounding of these operations can differ in the last place, so `int()` can differ by one just below an integer.
- A HeadHunter listing whose `salary` is `null` would raise `TypeError`. This is not modelled, because the listing query asks only for listings that have a salary.
- Salary bounds are integers; fractional bounds in the JSON are not modelled.
- The loop calls the estimator twice per kept listing. The estimator is deterministic, so the model calls it once.
- The order of network calls, for example the total count being fetched after the listings, is not modelled.
- The partly updated dictionary left behind by a `NameError` is not modelled, because the program ends there.
- `Report` and `ReportAsWritten` take the language list as a parameter and require it to be free of duplicates, as the keys of a dictionary literal are. `PopularLanguagesDistinct` shows that the fixed list meets this requirement.

## Findings

| source | as written | input that shows it | evidently intended | confidence | as-written member | corrected member |
|---|---|---|---|---|---|---|
| main.py:139-145 | `average_salary` is assigned only when the language has estimates, yet it is stored for every language. | JavaScript has one 100000..200000 RUR listing and Java has none. Java then reports 0 processed with average 150000. The SuperJob loop likewise starts from HeadHunter's last average. | A language with no estimate reports no average. | high, not executed | `Aggregation.AggregateAsWritten`, `Report.StaleAverageExample` | `Aggregation.Aggregate` |
| main.py:139-145 | The first iteration reads `average_salary` before it was ever assigned. | The first language, JavaScript, has only a USD listing at HeadHunter, so `int(average_salary)` raises NameError and nothing is printed. | The program prints both tables, with no average for that language. | high, not executed | `Report.ReportAsWritten`, `Report.NameErrorOnFirstLanguage` | `Report.Report` |
