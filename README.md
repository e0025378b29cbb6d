# HealthGuard AI dashboard core, in Dafny

HealthGuard AI is a clinical dashboard. It shows a synthetic cohort of
patients, the mock data. A seeded linear-congruential generator draws the
cohort once, when the module loads. The dashboard then shows it in three
places:

- a filterable, paginated patient table with a risk badge on each row;
- a detail modal with one severity-coloured bar per metric and three risk badges;
- a "Detailed Biometrics" card with bars, a coloured diabetes status and two glycaemia readings.

This project models those four parts and proves properties of the model.
Each part is one module.

- `MockData` (`mock_data.dfy`) covers the patient record and how a field of
  it is read by key (`FieldOf`).
  - `SeededRandom` is a class. Its `seed` field is overwritten by every draw.
  - `GenerateUsers` is the imperative loop. It pushes one patient per
    iteration and advances the shared generator as it goes.
  - The loop is proved equal to pure functions. `Draw` gives one
    iteration. It covers the two draws that `||` and `&&` skip, and the
    diabetes-type draw that an `if` guards. `Generate` gives the cohort.
  - The facts about the cohort are proved about those functions.
  Between them, the draws range over the generator's state, with these choices:
  - One-decimal floats (bmi, HbA1c, insulin, temperature) are integers in tenths.
  - `int`, `element` and `bool` are exact functions of the state.
- `PatientTable` (`patient_table.dfy`) covers:
  - the filter over search, sex, status and age;
  - the row badge;
  - pagination by eight entries and the "Showing a to b of n" numbers;
  - the Prev/Next buttons.
  The component's `useState` fields are the class `TableState`.
- `PatientModal` (`patient_modal.dfy`) covers the modal's metric table, the
  capped percentage, the three-band colour rule, the bars for numeric fields
  and the badges.
- `PatientVitals` (`patient_vitals.dfy`) covers the card's table with its one
  text entry, the text and bar branches, the items for string and number
  fields, and the readings.

Two support modules:

- `JsBuiltins` (`js_builtins.dfy`) holds the JavaScript behaviour the code
  relies on: truncating `%`, decimal formatting, ASCII `toLowerCase`,
  `String.prototype.includes`, `parseInt` and `Array.prototype.slice`.
- `Styles` (`styles.dfy`) holds the colour families and the badge shape.

The generator is a single module-level `rng` seeded with 12345, and
`generateUsers(count)` draws from it. A second call therefore continues the
stream; it does not restart it. The model keeps that sharing:

- `GenerateUsers` takes the generator object.
- `GenerateContinues` states what a second call yields: the next patients
  of the stream, with their ids numbered again from `PID-1001`.

## Model

| member | source | states |
|---|---|---|
| JsBuiltins.JsRem | health-guard-ai/lib/mockData.ts:40 | JavaScript's `%`: for a non-negative dividend the remainder lies in [0, 233280) and equals the mathematical remainder; for a negative one it lies in (-b, 0]; in both cases the dividend minus the remainder is a multiple of b |
| JsBuiltins.Decimal | health-guard-ai/lib/mockData.ts:86 | the decimal text of a number inside `PID-${1000 + i}` is non-empty, all digits, with no leading zero |
| JsBuiltins.DecimalRoundTrip | health-guard-ai/lib/mockData.ts:86 | reading back the digits of the decimal text gives the number again |
| JsBuiltins.DecimalInjective | health-guard-ai/lib/mockData.ts:86 | different numbers have different decimal texts, so different indices get different ids |
| JsBuiltins.ToLower | health-guard-ai/components/dashboard/PatientTable.tsx:23-24 | `toLowerCase` keeps the length and lowers exactly the letters A to Z |
| JsBuiltins.ToLowerIdempotent | health-guard-ai/components/dashboard/PatientTable.tsx:23-24 | lowering twice is lowering once |
| JsBuiltins.Includes | health-guard-ai/components/dashboard/PatientTable.tsx:23-24 | `includes` is true exactly when the needle occurs at some position of the text |
| JsBuiltins.ParseIntDecimal | health-guard-ai/components/dashboard/PatientTable.tsx:34-35 | `parseInt` of a number's decimal text, followed by nothing or by text that starts with neither a digit nor `x`/`X`, gives back that number |
| JsBuiltins.ParseIntNoDigits | health-guard-ai/components/dashboard/PatientTable.tsx:34-35 | `parseInt` of text that has no digit is NaN |
| JsBuiltins.TrimStart | health-guard-ai/components/dashboard/PatientTable.tsx:34-35 | `parseInt` drops exactly the leading white space and line terminators (every space separator, tab, vertical tab, form feed, the byte-order mark, LF, CR, U+2028, U+2029): what is removed is all white space and what is left is a suffix that does not start with white space |
| JsBuiltins.LeadingDigits | health-guard-ai/components/dashboard/PatientTable.tsx:34-35 | the digits `parseInt` reads are the longest prefix of digits of the radix: all of them are digits and the next character is not |
| JsBuiltins.ParseMagnitude | health-guard-ai/components/dashboard/PatientTable.tsx:34-35 | the unsigned part is NaN when the text does not start with a digit, and a number when it starts with a digit and has no `0x` prefix |
| JsBuiltins.ParseInt | health-guard-ai/components/dashboard/PatientTable.tsx:34-35 | `parseInt` is NaN exactly when no digit of the radix follows the white space, the sign and any `0x` prefix (so `0x` and `0xg` are NaN); a negative result needs a leading `-`, and a leading `-` never gives a positive result |
| JsBuiltins.ParseIntBarePrefix | health-guard-ai/components/dashboard/PatientTable.tsx:34-35 | `parseInt` of `0x` followed by nothing or by a character that is not a hex digit (as in `0xg`) is NaN, although the text starts with the digit `0` |
| JsBuiltins.Slice | health-guard-ai/components/dashboard/PatientTable.tsx:43 | `slice` with non-negative bounds is the stretch between the bounds clamped to the length; its length is at most `end - start`; an end of 0 gives the empty list |
| MockData.DiabetesLabel | health-guard-ai/lib/mockData.ts:11 | the diabetes field reads "None" exactly for a patient without diabetes |
| MockData.SexLabel | health-guard-ai/lib/mockData.ts:68 | the sex field reads "Male" exactly for a male patient and "Female" exactly for a female one |
| MockData.FieldOf | health-guard-ai/lib/mockData.ts:1-19 | reading a key gives a number exactly for the ten numeric keys and a string exactly for id, name, sex and diabetes |
| MockData.Step | health-guard-ai/lib/mockData.ts:40 | one generator step from a non-negative state stays in [0, 233280) |
| MockData.Fraction | health-guard-ai/lib/mockData.ts:41 | `next()` lies in [0, 1) |
| MockData.SeededRandom.constructor | health-guard-ai/lib/mockData.ts:33-35 | a new generator holds exactly the seed it is given |
| MockData.IntFrom | health-guard-ai/lib/mockData.ts:44-46 | `int(min, max)` lies in [min, max] |
| MockData.TenthsFrom | health-guard-ai/lib/mockData.ts:48-51 | `float(min, max, 1)` lies in [min, max] |
| MockData.ElementFrom | health-guard-ai/lib/mockData.ts:53-55 | `element` of a non-empty array is never `undefined` |
| MockData.ElementIsMember | health-guard-ai/lib/mockData.ts:53-55 | `element` of a non-empty array is one of its members |
| MockData.SeededRandom.Next | health-guard-ai/lib/mockData.ts:39-42 | advances the seed by one step of the recurrence and returns the new seed over 233280, a value in [0, 1) |
| MockData.SeededRandom.Int | health-guard-ai/lib/mockData.ts:44-46 | advances the seed once and returns a value in [min, max] |
| MockData.SeededRandom.Float | health-guard-ai/lib/mockData.ts:48-51 | advances the seed once and returns a value in [min, max] |
| MockData.SeededRandom.Element | health-guard-ai/lib/mockData.ts:53-55 | advances the seed once and returns a defined element of a non-empty array |
| MockData.SeededRandom.Bool | health-guard-ai/lib/mockData.ts:57-59 | advances the seed once and returns whether `next()` is below the chance |
| MockData.PatientId | health-guard-ai/lib/mockData.ts:86 | an id is `PID-` followed by at least one digit, with no leading zero |
| MockData.RiskChance | health-guard-ai/lib/mockData.ts:72-73 | the chance of the risk draw is 0.3 at bmi 25 and lies in [0.17, 0.4] for every bmi where the draw is taken (18.5 to 30) |
| MockData.IdNumberOfPatientId | health-guard-ai/lib/mockData.ts:86 | the id of index i is `PID-` followed by the digits of 1000 + i |
| MockData.DrawTier | health-guard-ai/lib/mockData.ts:67-74 | bmi lies in [18.5, 38.0]; bmi above 30 makes the patient high risk without a risk draw; the risk draw is taken only otherwise |
| MockData.DrawGlycaemia | health-guard-ai/lib/mockData.ts:76-83 | glucose lies in [100, 220] for a high-risk patient and [65, 185] otherwise; HbA1c lies in [4.5, 10.0] and stays at most 6.2 for low risk; a diabetes type is drawn only past the threshold HbA1c > 6.5 or glucose > 200, so a low-risk patient never has one |
| MockData.DrawName | health-guard-ai/lib/mockData.ts:87 | the name takes exactly two draws; from a non-negative state with non-empty pools it is a first name from the pool, a space and a last name from the pool |
| MockData.DrawVitals | health-guard-ai/lib/mockData.ts:88-102 | age, insulin, blood pressure, heart rate, SpO2 and temperature lie in their drawn ranges; hypertension is drawn only for a high-risk patient |
| MockData.Draw | health-guard-ai/lib/mockData.ts:66-103 | one iteration gives the id `PID-(1000+i)`; the patient satisfies every range and derived-flag invariant (hypo iff glucose < 70, hyper iff glucose > 180, never both, diabetes only past the threshold); a low-risk patient has glucose in [65, 185], HbA1c at most 6.2, no diabetes and no hypertension; bmi above 30 and hypertension both imply high risk |
| MockData.DrawNamed | health-guard-ai/lib/mockData.ts:87 | from a non-negative state with non-empty pools, the patient's name is a first name from the pool, a space and a last name from the pool |
| MockData.DrawCount | health-guard-ai/lib/mockData.ts:66-103 | one iteration advances the generator 13 times plus once per conditional draw taken, so 13 to 16 times |
| MockData.GenerateWith | health-guard-ai/lib/mockData.ts:64-106 | a loop of n iterations, whatever each iteration draws, pushes exactly n patients |
| MockData.GenerateWithKeeps | health-guard-ai/lib/mockData.ts:64-106 | a property that every iteration's patient has, from every non-negative state, holds of every patient the loop pushes |
| MockData.Generate | health-guard-ai/lib/mockData.ts:64-106 | the cohort of `count` iterations has `count` patients |
| MockData.GenerateIds | health-guard-ai/lib/mockData.ts:86 | patient k of the cohort has the id `PID-(1001+k)` |
| MockData.GenerateIdsIncreasing | health-guard-ai/lib/mockData.ts:86 | the ids are numbered 1001, 1002, … in order and are pairwise distinct |
| MockData.NumberedIds | health-guard-ai/lib/mockData.ts:86 | patients given the ids of indices 1, 2, … read back as 1001, 1002, … and no two of them share an id |
| MockData.GeneratePlausible | health-guard-ai/lib/mockData.ts:64-106 | from a non-negative seed every patient of the cohort satisfies the invariants of one draw |
| MockData.GenerateNamed | health-guard-ai/lib/mockData.ts:87 | from a non-negative seed with non-empty pools, every name of the cohort is a first name from the pool, a space and a last name from the pool |
| MockData.GeneratePrefix | health-guard-ai/lib/mockData.ts:66 | the first a patients of a longer run are the run of a patients |
| MockData.GenerateContinuesState | health-guard-ai/lib/mockData.ts:62-66 | b iterations after a iterations leave the shared generator where a + b iterations leave it |
| MockData.GenerateContinues | health-guard-ai/lib/mockData.ts:62-66 | a second call of `generateUsers` yields the next patients of the stream, renumbered from `PID-1001` |
| MockData.GenerateUsers | health-guard-ai/lib/mockData.ts:64-106 | the loop returns exactly the specified cohort of `count` patients (none for a count below 1) and leaves the generator in the state after them |
| MockData.TierDraws | health-guard-ai/lib/mockData.ts:67-73 | the sex, bmi and risk draws on the shared generator give exactly the specified tier and state |
| MockData.GlycaemiaDraws | health-guard-ai/lib/mockData.ts:76-83 | the glucose, HbA1c and diabetes draws give exactly the specified values and state |
| MockData.NameDraws | health-guard-ai/lib/mockData.ts:87 | the two name draws give exactly the specified name and state |
| MockData.VitalDraws | health-guard-ai/lib/mockData.ts:88-102 | the age and vital-sign draws give exactly the specified values and state |
| MockData.DrawPatient | health-guard-ai/lib/mockData.ts:67-103 | the loop body's draws on the shared generator give exactly the specified patient and state |
| MockData.MockPatientsShape | health-guard-ai/lib/mockData.ts:109 | `MOCK_PATIENTS` has 25 patients with ids `PID-1001` to `PID-1025`, all satisfying the draw invariants |
| MockData.MockPatientsNamed | health-guard-ai/lib/mockData.ts:87 | every name in `MOCK_PATIENTS` is one of the first names, a space and one of the last names |
| MockData.InitModule | health-guard-ai/lib/mockData.ts:109 | module start-up seeds the generator with 12345 and builds `MOCK_PATIENTS` as the specified cohort of 25 |
| PatientTable.IsCritical | health-guard-ai/components/dashboard/PatientTable.tsx:28 | a patient is critical exactly when hypoglycaemic, hyperglycaemic or with a bmi above 30.0 |
| PatientTable.StatusBadge | health-guard-ai/components/dashboard/PatientTable.tsx:124-138 | a row reads "Need Attention" in red exactly for a critical patient and "Stable" in green otherwise |
| PatientTable.MatchesSearch | health-guard-ai/components/dashboard/PatientTable.tsx:23-24 | the empty search matches; a match needs a query no longer than the name or the id |
| PatientTable.MatchesSex | health-guard-ai/components/dashboard/PatientTable.tsx:26 | 'All' keeps everyone, 'Male' exactly the male and 'Female' exactly the female patients |
| PatientTable.MatchesStatus | health-guard-ai/components/dashboard/PatientTable.tsx:28-31 | any status other than 'All', 'Critical' and 'Stable' keeps nobody |
| PatientTable.AgeBound | health-guard-ai/components/dashboard/PatientTable.tsx:34-35 | an empty input gives the default bound; a non-empty input without any digit gives NaN |
| PatientTable.MatchesAge | health-guard-ai/components/dashboard/PatientTable.tsx:33-36 | a match needs both bounds to be numbers; a blank minimum admits no negative age and a blank maximum none above 120 |
| PatientTable.Matches | health-guard-ai/components/dashboard/PatientTable.tsx:21-38 | under the initial inputs a patient passes exactly when aged 0 to 120 |
| PatientTable.FilterPatients | health-guard-ai/components/dashboard/PatientTable.tsx:21-39 | the filtered list holds only matching patients of the cohort, holds every matching patient, and is no longer than the cohort |
| PatientTable.FilterIsSubsequence | health-guard-ai/components/dashboard/PatientTable.tsx:22 | the filter keeps the cohort's order |
| PatientTable.FilterKeepsAll | health-guard-ai/components/dashboard/PatientTable.tsx:22 | when every patient matches, the filter returns the cohort unchanged |
| PatientTable.EmptySearchMatchesAll | health-guard-ai/components/dashboard/PatientTable.tsx:23-24 | the empty search matches every patient |
| PatientTable.SearchFindsId | health-guard-ai/components/dashboard/PatientTable.tsx:24 | typing a patient's id in any letter case finds that patient |
| PatientTable.SearchIgnoresCase | health-guard-ai/components/dashboard/PatientTable.tsx:23-24 | the query's letter case does not change the result |
| PatientTable.StatusPartition | health-guard-ai/components/dashboard/PatientTable.tsx:28-31 | 'All' keeps everyone; 'Critical' keeps exactly the critical patients and 'Stable' exactly the others |
| PatientTable.BadgeAgreesWithStatusFilter | health-guard-ai/components/dashboard/PatientTable.tsx:28-31 | a row's badge reads "Stable" exactly when the 'Stable' filter keeps the row, and "Need Attention" exactly when 'Critical' keeps it |
| PatientTable.StatusSplitsCount | health-guard-ai/components/dashboard/PatientTable.tsx:28-31 | with the other filters fixed, the 'Critical' and 'Stable' lists together are as long as the 'All' list |
| PatientTable.AgeBoundsInclusive | health-guard-ai/components/dashboard/PatientTable.tsx:33-36 | numeric age bounds are inclusive at both ends |
| PatientTable.BlankAgeBounds | health-guard-ai/components/dashboard/PatientTable.tsx:34-35 | a blank minimum means 0 and a blank maximum means 120 |
| PatientTable.NonNumericAgeBoundExcludes | health-guard-ai/components/dashboard/PatientTable.tsx:34-36 | a bound that `parseInt` reads as NaN, on either side, excludes every patient |
| PatientTable.DefaultFiltersMatch | health-guard-ai/components/dashboard/PatientTable.tsx:12-39 | the initial inputs keep every patient aged 0 to 120 |
| PatientTable.DefaultFiltersKeepPlausible | health-guard-ai/components/dashboard/PatientTable.tsx:12-39 | the initial inputs keep every cohort the generator can draw |
| PatientTable.DefaultFiltersKeepMockPatients | health-guard-ai/components/dashboard/PatientTable.tsx:12-39 | before any input the table's list is all 25 of `MOCK_PATIENTS` |
| PatientTable.TotalPages | health-guard-ai/components/dashboard/PatientTable.tsx:42 | `totalPages` is the ceiling of n / 8: the least count of 8-entry pages that holds n entries |
| PatientTable.PageOf | health-guard-ai/components/dashboard/PatientTable.tsx:43 | each page from 1 on holds at most 8 entries and is the contiguous block [(page-1)·8, page·8) clamped to the list; page 0 is empty |
| PatientTable.EveryEntryOnItsPage | health-guard-ai/components/dashboard/PatientTable.tsx:42-43 | entry j is entry j mod 8 of page j div 8 + 1, and that page is at most `totalPages` |
| PatientTable.PageNonEmptyIff | health-guard-ai/components/dashboard/PatientTable.tsx:42-43 | a page from 1 on shows entries exactly when it is at most `totalPages` |
| PatientTable.ShownFrom | health-guard-ai/components/dashboard/PatientTable.tsx:166 | on a page from 1 on, the first row number is at least 1 and one more than a multiple of 8 |
| PatientTable.ShownTo | health-guard-ai/components/dashboard/PatientTable.tsx:166 | the last row number is the smaller of page · 8 and the list length |
| PatientTable.ShowingCountsThePage | health-guard-ai/components/dashboard/PatientTable.tsx:166 | on an existing page, "Showing a to b" has 1 ≤ a ≤ b and b − a + 1 equals the rows shown |
| PatientTable.PrevDisabled | health-guard-ai/components/dashboard/PatientTable.tsx:171 | from page 1 on, Prev is disabled exactly where a click would leave the page unchanged |
| PatientTable.NextDisabled | health-guard-ai/components/dashboard/PatientTable.tsx:178 | up to the last page, Next is disabled exactly where the written click would leave the page unchanged |
| PatientTable.PrevPage | health-guard-ai/components/dashboard/PatientTable.tsx:170 | Prev moves one page back and never below page 1 |
| PatientTable.NextPageAsWritten | health-guard-ai/components/dashboard/PatientTable.tsx:177 | Next as written moves one page on while that is at most `totalPages`, and otherwise goes to `totalPages`, even when that is 0 |
| PatientTable.NextOnEmptyListReachesPageZero | health-guard-ai/components/dashboard/PatientTable.tsx:177-178 | on an empty list Next is enabled on page 1 and moves to page 0, where nothing is shown |
| PatientTable.NextFromPageZeroRecovers | health-guard-ai/components/dashboard/PatientTable.tsx:170-178 | once the list is non-empty again, page 0 has both buttons enabled and each leads to page 1 |
| PatientTable.NextPage | health-guard-ai/components/dashboard/PatientTable.tsx:177 | corrected Next moves one page on, stops at the last page, and stays between 1 and max(totalPages, 1) |
| PatientTable.NextPageAgreesWhenPagesExist | health-guard-ai/components/dashboard/PatientTable.tsx:177 | the corrected Next equals the written one whenever there is at least one page |
| PatientTable.SteppingStaysInRange | health-guard-ai/components/dashboard/PatientTable.tsx:170-177 | from a page in 1..totalPages, Prev and Next stay in 1..totalPages |
| PatientTable.TableState.constructor | health-guard-ai/components/dashboard/PatientTable.tsx:12-18 | the table starts with empty search, 'All' sex and status, blank ages and page 1, listing the cohort under the default filters |
| PatientTable.TableState.Filtered | health-guard-ai/components/dashboard/PatientTable.tsx:21-39 | `filteredPatients` holds exactly the patients of the cohort that match the current inputs: each entry matches and is in the cohort, each matching patient of the cohort is kept, and it is no longer than the cohort |
| PatientTable.TableState.TotalPageCount | health-guard-ai/components/dashboard/PatientTable.tsx:42 | `totalPages` is the least count of 8-entry pages that holds the filtered list |
| PatientTable.TableState.Paginated | health-guard-ai/components/dashboard/PatientTable.tsx:43 | the rows shown are at most 8 on a page from 1 on, and all come from the filtered list |
| PatientTable.TableState.SetSearch | health-guard-ai/components/dashboard/PatientTable.tsx:55 | typing changes only the search text and leaves the page where it was; the page stays at least 1 |
| PatientTable.TableState.SetFilterSex | health-guard-ai/components/dashboard/PatientTable.tsx:66 | changes only the sex filter and leaves the page; the page stays at least 1 |
| PatientTable.TableState.SetFilterStatus | health-guard-ai/components/dashboard/PatientTable.tsx:79 | changes only the status filter and leaves the page; the page stays at least 1 |
| PatientTable.TableState.SetFilterAgeMin | health-guard-ai/components/dashboard/PatientTable.tsx:94 | changes only the minimum age and leaves the page; the page stays at least 1 |
| PatientTable.TableState.SetFilterAgeMax | health-guard-ai/components/dashboard/PatientTable.tsx:102 | changes only the maximum age and leaves the page; the page stays at least 1 |
| PatientTable.TableState.ClickPrev | health-guard-ai/components/dashboard/PatientTable.tsx:170-171 | does nothing on page 1, else steps back one page; the page stays at least 1 and never grows |
| PatientTable.TableState.ClickNext | health-guard-ai/components/dashboard/PatientTable.tsx:177-178 | does nothing on the last page, else steps on with the corrected Next; the page stays at least 1 and, when it moves, at most max(totalPages, 1) |
| PatientTable.OpenDashboard | health-guard-ai/components/dashboard/PatientTable.tsx:12-43 | on the first render the table over `MOCK_PATIENTS` lists all 25 patients on 4 pages and shows the first 8 |
| PatientModal.MetricTableFacts | health-guard-ai/components/dashboard/PatientModal.tsx:14-24 | nine metrics, and exactly insulin and SpO2 are the ones where low is bad |
| PatientModal.MetricFieldsAreNumbers | health-guard-ai/components/dashboard/PatientModal.tsx:14-24 | every metric of the table reads a numeric field |
| PatientModal.Percentage | health-guard-ai/components/dashboard/PatientModal.tsx:27 | never above 100; exactly 100 from the maximum on; below it, value / max · 100 |
| PatientModal.BarColourOf | health-guard-ai/components/dashboard/PatientModal.tsx:30-40 | always red, yellow or green, never the initial blue; high-bad: red iff > 80, yellow iff in (60, 80], green iff ≤ 60; otherwise red iff < 90, yellow iff in [90, 95), green iff ≥ 95 |
| PatientModal.MetricBar | health-guard-ai/components/dashboard/PatientModal.tsx:26-46 | a bar shows the metric's label, unit and value; its percentage is 100 from the maximum on and value / max · 100 below it, so in [0, 100] for a non-negative value; its colour is the band of that percentage |
| PatientModal.BarColourByValue | health-guard-ai/components/dashboard/PatientModal.tsx:27-40 | the bands stated on the value itself: a high-bad bar is red above 80 % of the maximum and yellow above 60 %; any other is red below 90 % and yellow below 95 % |
| PatientModal.BarColourExamples | health-guard-ai/components/dashboard/PatientModal.tsx:30-40 | systolic 170 of 200 is red, 110 green; SpO2 88 of 100 is red, 96 green |
| PatientModal.BarsOver | health-guard-ai/components/dashboard/PatientModal.tsx:95-101 | at most one bar per entry; with numeric fields, exactly one per entry in order; with no numeric field, none |
| PatientModal.Bars | health-guard-ai/components/dashboard/PatientModal.tsx:95-101 | every entry of the metric table gives a bar: none is skipped |
| PatientModal.NineBarsInTableOrder | health-guard-ai/components/dashboard/PatientModal.tsx:95-101 | the modal draws nine bars in table order, each from the patient's own value of that field |
| PatientModal.GlycaemiaBadge | health-guard-ai/components/dashboard/PatientModal.tsx:107-116 | reads DETECTED in red exactly when the flag is set, otherwise NORMAL in green |
| PatientModal.HtnBadge | health-guard-ai/components/dashboard/PatientModal.tsx:119-120 | reads YES in orange exactly for a history of hypertension, otherwise NO in slate |
| PatientModal.Badges | health-guard-ai/components/dashboard/PatientModal.tsx:104-122 | the modal shows three badges: hypoglycaemia then hyperglycaemia, each DETECTED in red exactly when its flag is set and NORMAL in green otherwise, then hypertension, YES in orange exactly for a history and NO in slate otherwise |
| PatientModal.GlycaemiaBadgesExclusive | health-guard-ai/components/dashboard/PatientModal.tsx:107-116 | for a generated patient the hypo badge reads DETECTED iff glucose < 70, the hyper badge iff glucose > 180, and never both |
| PatientVitals.VitalTableLayout | health-guard-ai/components/patient/PatientVitals.tsx:9-20 | the order is sbp, dbp, diabetes, glucose, HbA1c, BMI, insulin, heart rate, SpO2, temperature; only diabetes is text; every bar entry also appears, unchanged, in the modal's table |
| PatientVitals.VitalMetric | health-guard-ai/components/patient/PatientVitals.tsx:22-48 | a text entry shows the value in green exactly when it is "None", in red otherwise; a bar entry of a number gets a percentage of at most 100; the colour is always red, yellow or green |
| PatientVitals.VitalBarMatchesModal | health-guard-ai/components/patient/PatientVitals.tsx:34-48 | for a number, the card's bar has the modal's percentage and the modal's colour |
| PatientVitals.ItemsOver | health-guard-ai/components/patient/PatientVitals.tsx:77-83 | at most one item per entry; with string or number fields, exactly one per entry in order; with neither, none |
| PatientVitals.VitalItems | health-guard-ai/components/patient/PatientVitals.tsx:77-83 | the card shows one item per table entry, with the entry's title, in table order |
| PatientVitals.TenItemsInTableOrder | health-guard-ai/components/patient/PatientVitals.tsx:77-83 | the card shows ten items in table order, each from the patient's own value of that field |
| PatientVitals.VitalFieldsAreShown | health-guard-ai/components/patient/PatientVitals.tsx:9-20 | every entry of the table reads a string or a number field |
| PatientVitals.DiabetesStatusGreenIffNone | health-guard-ai/components/patient/PatientVitals.tsx:23-31 | the third item is the diabetes status as text, green exactly for a patient without diabetes |
| PatientVitals.GlycaemiaReading | health-guard-ai/components/patient/PatientVitals.tsx:88-98 | reads DETECTED in red exactly when the flag is set, otherwise NEGATIVE in green |
| PatientVitals.Readings | health-guard-ai/components/patient/PatientVitals.tsx:87-100 | the card shows two readings, hypoglycaemia then hyperglycaemia, each DETECTED in red exactly when its flag is set and NEGATIVE in green otherwise |
| PatientVitals.ReadingsAgreeWithModal | health-guard-ai/components/patient/PatientVitals.tsx:88-98 | the card and the modal colour each glycaemia flag alike and agree on DETECTED |

## Left out

- Rendering is not modelled: JSX, framer-motion animation, Tailwind class strings beyond the colour family, the modal's open/close state and `selectedPatient`. The colours and texts are what the model keeps.
- The login page, `GlucoseChart`, the sidebar, the top bar, the stats grid and the risk gauge are not part of this model. They are navigation, presentation, or draw on `Math.random` and `Math.sin`.
- The health score and the diagnostic score are computed in app pages that are not part of this model.
- MockData.TenthsFrom: `toFixed(1)` and `parseFloat` on IEEE doubles are idealised as exact round-half-up to tenths on the rational `next() * (max - min) + min`.
- MockData.IntFrom: the floor of the double product `next() * n` is taken as the exact integer floor of `u * n / 233280`.
- MockData.SeededRandom.Float: only one decimal is modelled, the only precision the code uses.
- MockData.SeededRandom: seeds are integers. The code only ever passes 12345; a fractional or huge seed, where doubles lose precision, is not modelled.
- MockData.SeededRandom.Bool: its contract states no range, since the value is a comparison.
- MockData.DrawPatient: it also returns a ghost `isHighRisk`. The real result is the patient, and the risk tier is the local `isHighRisk` of the loop body.
- The table's list is the `patients` passed to `TableState`; the code reads the module constant `MOCK_PATIENTS` there. `OpenDashboard` builds the table over `MockPatients()`, and `DefaultFiltersKeepMockPatients` relates the default filters to `MockPatients()`.
- JsBuiltins.ToLower: only the letters A to Z are lowered. JavaScript's `toLowerCase` also lowers other letters, and the Kelvin sign U+212A becomes "k", so a search query with such characters is not modelled. The names and ids the generator produces are ASCII.
- PatientModal.Bars: its own contract states only that no entry is skipped; which bar each entry gives is stated by `NineBarsInTableOrder`.
- PatientTable.TableState.ClickNext: it uses the corrected Next (see Findings), so its upper bound on the page differs from the code's behaviour on an empty list. The page left above `totalPages` after a filter narrows the list is modelled as the code does it.
- PatientVitals.VitalMetric: a bar entry whose value is not a number is modelled as NaN: no percentage, and green, since every band comparison with NaN fails. JavaScript's coercion of numeric-looking strings is not modelled, and no field the table reads can produce one.

## Findings

| source | as written | input that shows it | evidently intended | confidence | as-written member | corrected member |
|---|---|---|---|---|---|---|
| health-guard-ai/components/dashboard/PatientTable.tsx:177-178 | Next sets `page` to `Math.min(totalPages, p + 1)` and is disabled only when `page === totalPages` | filters that match no patient: `totalPages` is 0, so on page 1 Next is enabled and sets page 0; the slice `(-8, 0)` is then empty for every list, and the footer reads "Showing -7 to 0" until Prev, or Next once the list is non-empty, is pressed | Next never leaves the range 1..max(totalPages, 1) | not executed | PatientTable.NextOnEmptyListReachesPageZero | PatientTable.NextPage |
