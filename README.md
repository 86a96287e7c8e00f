# Study-centre admin front end: student list, add-student form and finance page

This project models the logic of three pages of a browser front end used by a
small study centre.

- **Student list (`src/pages/Home.js`).** The displayed list is computed from the loaded students in up to three stages: a search, a time-slot filter and a payment-status filter. Each row also shows the days remaining until the end date, the amount cell ("Unpaid" or the amount) and the seat cell ("Not Assigned" when there is no seat).
- **Add-student form (`src/components/AddStudentModal.js`).** The modelled parts are:
  - the required-field check that gates submission;
  - the paid flag, which is derived from the amount field;
  - the day count between the two chosen dates;
  - the seat select, which offers seats 1 to 80 and disables occupied ones;
  - the loop that fills the seat-availability map.
- **Finance page (`src/pages/Finance.js`).** The modelled parts are the `"YYYY-MM"` key of the current month, the lookup of a month's figures with its defaults, and the fallbacks to 0 on the four figure cards. The page state is kept by mounting and by changing the month.

Files and modules:

- `text.dfy`: `Wrappers` (an `Option` type) and `Text`. `Text` holds ASCII lower-casing, substring search, decimal rendering and reading of numbers, two-character left padding and first-index search.
- `dates.dfy`: `Dates`. It holds ceiling division by the length of a day in milliseconds, and the day difference clamped at 0.
- `home.dfy`: `Home`. It holds a generic `Filter` (the model of `Array.prototype.filter`) and its laws, the three filter stages, the `ApplyFilters` method that narrows the list stage by stage, the `HomePage` class holding the page state, and the row cells (`RemainingDays`, `AmountCell`, `SeatCell`) as module-level functions.
- `add_student_modal.dfy`: `AddStudent`. It holds the submit decision, the seat options, the seat-map loop and the `AddStudentModal` class holding the form state.
- `finance.dfy`: `Finance`. It holds month keys, the lookup, the display fallbacks and the `FinancePage` class.

Conventions:

- Dates are integer milliseconds, as `getTime()` returns them. The current time is always a parameter.
- `Math.ceil` of a division by `1000 * 60 * 60 * 24` is integer ceiling division.
- State that a page keeps in React `useState` hooks is held in class fields. Each hook setter is a method with a `modifies` clause naming the fields it changes. Where React re-runs an effect after a change, the method runs that effect too.

What the code does not do:

- The form never checks that the end date comes after the start date. An earlier end date is accepted, and the day count is 0.
- There is no enrollment store, no create, update or delete operation, and no rule against two students holding the same seat.
- Seat occupancy is random rather than derived from enrollments.
- The finance figures are fixed mock values rather than sums over students.
- A student counts as paid when anything at all is typed in the amount field, including `0`.

## Model

| member | source | states |
|---|---|---|
| Home.ApplyFilters | src/pages/Home.js:84-111 | Running the active stages one after another (search if the term is non-empty, slot if not "all", payment if not "all") gives exactly the single filter `Select` on the conjunction of the stage tests |
| Home.Select | src/pages/Home.js:84-111 | The list the controls select is no longer than the loaded list, and every student in it passes all three stages (`Kept`) |
| Home.MatchesSearchEmptyTerm | src/pages/Home.js:89-96 | `MatchesSearch`, the search predicate, holds of every student for the empty term, since every name contains the empty string |
| Home.SearchOkIsSearch | src/pages/Home.js:88-97 | `SearchOk`, the search stage with its `if (searchTerm)` guard, keeps exactly the students the search predicate matches: skipping the stage for an empty term changes nothing |
| Home.SlotFiltersDisjoint | src/pages/Home.js:100-102 | `SlotOk`, the time-slot stage, keeps every student under "all", and no student is kept under two different slots |
| Home.PaymentFiltersSplit | src/pages/Home.js:105-108 | `PaymentOk`, the payment stage, keeps every student under "all", exactly the paid students under "paid" and exactly the unpaid ones under "unpaid" |
| Home.SelectPaymentSplit | src/pages/Home.js:105-108 | With the payment filter on "all", the list shown under "paid" and the list shown under "unpaid" together hold exactly the students shown, each as often |
| Home.SelectMembership | src/pages/Home.js:88-108 | A student is displayed iff it was loaded and passes every active stage. The search stage is passed iff one of these holds: the lower-cased name contains the lower-cased term; the email is present and contains the term, ignoring case; the phone number contains the raw term; the seat is non-zero and its decimal string equals the term; the village is present and contains the term, ignoring case. The slot stage compares `timeSlot` with the filter. The payment stage compares the stored `isPaid` with `paymentFilter == "paid"` |
| Home.SelectIsSublist | src/pages/Home.js:85-110 | The displayed list is an order-preserving subsequence of the loaded list and no longer than it. Each student appears exactly as many times as it was loaded if it passes, else not at all, so nothing is added, duplicated or reordered |
| Home.SelectInitialIsIdentity | src/pages/Home.js:14-16 | With an empty search term and both filters on "all" (the initial controls), the displayed list equals the loaded list |
| Home.SelectIdempotent | src/pages/Home.js:84-111 | Filtering the displayed list again with the same controls returns it unchanged |
| Home.Filter | src/pages/Home.js:89-107 | `Array.prototype.filter` returns no more elements than it was given, and every element it returns satisfies the predicate |
| Home.FilterIsSubsequence | src/pages/Home.js:89-107 | `filter` returns an order-preserving subsequence of its input |
| Home.FilterMultiplicity | src/pages/Home.js:89-107 | `filter` keeps each element exactly as often as it occurs when it satisfies the predicate, and drops it otherwise |
| Home.FilterMembership | src/pages/Home.js:89-107 | `filter` keeps an element iff it is in the input and satisfies the predicate |
| Home.FilterCompose | src/pages/Home.js:89-107 | Two successive `filter` calls equal one `filter` on the conjunction of their predicates |
| Home.HomePage.constructor | src/pages/Home.js:9-16 | The page starts with no students, an empty displayed list, an empty search and both filters on "all" |
| Home.HomePage.FilterStudents | src/pages/Home.js:84-111 | `filterStudents` writes `Select(students, controls)` into `filteredStudents` and changes nothing else |
| Home.HomePage.StudentsLoaded | src/pages/Home.js:19-25 | Loading a list stores it. The effect then re-filters it, so the displayed list is again the filter of the loaded list under the unchanged controls |
| Home.HomePage.SetSearchTerm | src/pages/Home.js:23-25 | Changing the search term re-runs the filter. The displayed list equals the filter under the new term, and the other controls and the students are unchanged |
| Home.HomePage.SetTimeSlotFilter | src/pages/Home.js:184 | Changing the time-slot select re-runs the filter under the new slot; nothing else changes |
| Home.HomePage.SetPaymentFilter | src/pages/Home.js:200 | Changing the payment select re-runs the filter under the new status; nothing else changes |
| Home.RemainingDays | src/pages/Home.js:113-119 | The remaining days are never negative. They are 0 iff the end date is not after today; otherwise they are the least `d` with `end - today <= d` days, i.e. `ceil((end - today) / 86400000)` |
| Home.AmountCell | src/pages/Home.js:268 | The cell reads "Unpaid" iff the student is not paid. A paid student's cell is the rupee sign followed by digits that read back as the payment amount |
| Home.AmountCellAsWritten | src/pages/Home.js:268 | The cell as the source file spells it: "Unpaid" iff the student is not paid; a paid student's cell is the three characters U+00E2 U+201A U+00B9 followed by digits that read back as the amount |
| Home.AmountCellMisencoded | src/pages/Home.js:268 | For every paid student the cell as written differs from the intended one. An amount of 500 shows as the three characters U+00E2 U+201A U+00B9 followed by "500" |
| Home.SeatCell | src/pages/Home.js:278 | The cell reads "Not Assigned" iff the seat is absent or 0; otherwise its digits read back as the seat number |
| Dates.DayCeil | src/pages/Home.js:117 | Integer `Math.ceil(ms / 86400000)`: the result `d` satisfies `(d - 1) * day < ms <= d * day` |
| Dates.ClampedDayDiff | src/components/AddStudentModal.js:34-36 | `diffDays > 0 ? diffDays : 0`: never negative, 0 iff the end is not after the start, otherwise the rounded-up number of whole days |
| Dates.ClampedDayDiffWholeDays | src/components/AddStudentModal.js:34-36 | A span of exactly `n` whole days counts as `n` |
| Dates.ClampedDayDiffMonotone | src/pages/Home.js:116-118 | A later end date never yields fewer days |
| Text.Lower | src/pages/Home.js:91 | `toLowerCase` keeps the length and leaves no capital letter A..Z. Each capital becomes the small letter at the same place in the alphabet; every other character is unchanged |
| Text.LowerIdempotent | src/pages/Home.js:91 | Lower-casing an already lower-cased string changes nothing, so lower-casing both the field and the term is consistent |
| Text.ContainsIffOccurs | src/pages/Home.js:91-95 | `Contains(s, t)`, the model of `s.includes(t)`, holds iff `t` occurs as a contiguous slice of `s` at some index |
| Text.NatToString | src/pages/Home.js:94 | `toString` of a natural number is a non-empty string of digits. It has a single digit iff the number is below 10, and starts with '0' only for 0 |
| Text.ParseNatToString | src/pages/Home.js:94 | Reading back the decimal string of a number gives the number |
| Text.NatToStringInjective | src/pages/Home.js:94 | Two numbers have the same decimal string iff they are equal, so a seat matches a term for at most one seat number |
| Text.ParseNatLeadingZero | src/pages/Finance.js:14 | Prefixing a "0", as the month padding does, does not change the digits' value |
| Text.PadStart2 | src/pages/Finance.js:14 | `padStart(2, "0")` leaves strings of length 2 or more alone. It left-fills shorter ones with '0' to length 2, with the original string as the suffix |
| Text.IndexOf | src/pages/Finance.js:57 | The result is the index of the first occurrence of the character, or the length when it does not occur |
| AddStudent.Decide | src/components/AddStudentModal.js:65-70 | Submission is rejected, with "Please fill in all required fields", iff the name, phone number or time slot is empty or either date is unset. An accepted student is paid iff the amount field is not empty |
| AddStudent.DecideIgnoresOptionalFields | src/components/AddStudentModal.js:65 | Two forms alike in the five required fields are both rejected or both accepted. Amount, seat, email, village and father's name do not matter |
| AddStudent.ZeroAmountCountsAsPaid | src/components/AddStudentModal.js:70 | With the required fields filled, an amount of "0" gives a paid student and an empty amount an unpaid one |
| AddStudent.MockSeats | src/components/AddStudentModal.js:49-53 | Whatever occupancy values are drawn, the filled map has key set exactly {1..80} |
| AddStudent.SeatOptions | src/components/AddStudentModal.js:203-206 | There are 81 options: "Not Assigned" with an empty value first, then for `k` = 1..80 the option whose value is `k`'s decimal string. Option `k` is disabled iff the map holds `false` for `k` (`Occupied`, the model of `=== false`), so a `true` or a missing entry leaves it selectable |
| AddStudent.SeatOptionsIncreasing | src/components/AddStudentModal.js:204 | The seat option values are digit strings reading as their seat numbers, in strictly increasing order, and none is empty |
| AddStudent.UnknownSeatsSelectable | src/components/AddStudentModal.js:205 | A seat missing from the map, as every seat is before the map is filled, is not disabled |
| AddStudent.DayStart | src/components/AddStudentModal.js:26-27 | The default start date is the UTC midnight on or before now, less than a day earlier |
| AddStudent.AddStudentModal.constructor | src/components/AddStudentModal.js:7-28 | The form opens empty, with time slot "6hr", today's date as start date, no end date, day count 0, an empty seat map, no error and nothing loading |
| AddStudent.AddStudentModal.DaysCountEffect | src/components/AddStudentModal.js:30-38 | When both dates are set, the day count becomes their clamped ceiling day difference; otherwise it keeps its old value |
| AddStudent.AddStudentModal.Edit | src/components/AddStudentModal.js:113-239 | An input change stores the new values and re-runs the day-count effect only when a date changed. With both dates set, the day count is that of the current dates; with either date unset, or with the dates unchanged, it keeps its old value |
| AddStudent.AddStudentModal.FetchAvailableSeats | src/components/AddStudentModal.js:40-59 | After the fetch resolves, the seat map's key set is exactly {1..80} |
| AddStudent.AddStudentModal.HandleSubmit | src/components/AddStudentModal.js:61-86 | The error is cleared first. A rejected form ends with the required-fields message, `onStudentAdded` not called and the loading flag untouched. An accepted form ends with no error, `onStudentAdded` called exactly once and loading over |
| Finance.MonthDigits | src/pages/Finance.js:14 | For month numbers 1..12 the padded month is two digits that read back as the month, starting with '0' or '1' |
| Finance.MonthKeyShape | src/pages/Finance.js:13-14 | For `getMonth()` values 0..11 the key built by `MonthKey` is the year's digits, a '-', and two digits reading as `monthIndex + 1` |
| Finance.MonthKeyRoundTrip | src/pages/Finance.js:57 | Splitting a month key at '-' (`MonthKeyParts`, the first two fields of `split("-")`) gives back the year and the month number 1..12 |
| Finance.PartsOfJoin | src/pages/Finance.js:57 | `MonthKeyParts` of two digit strings joined by '-' gives back exactly those two strings |
| Finance.GetMonthlyData | src/pages/Finance.js:61-65 | The lookup gives nothing iff there is no data, no monthly figures or no selected month. Otherwise it gives the stored entry for the month, or `{amount: 0, count: 0}` when the month is absent |
| Finance.OrZero | src/pages/Finance.js:103 | The fallback to 0 on a card returns the integer itself: the only falsy integer is 0 |
| Finance.MonthlyRevenueShown | src/pages/Finance.js:103 | The revenue card shows the stored amount of the selected month when there is one, else 0 |
| Finance.MonthlyStudentsShown | src/pages/Finance.js:108 | The students card shows the stored count of the selected month when there is one, else 0 |
| Finance.TotalRevenueShown | src/pages/Finance.js:127 | The total revenue card shows `totalAmount` when data is loaded, else 0 |
| Finance.TotalStudentsShown | src/pages/Finance.js:134 | The total students card shows `studentCount` when data is loaded, else 0 |
| Finance.MockLookup | src/pages/Finance.js:31-40 | Figures fetched for a month (`MockFinanceData`, the mock response): the lookup finds them when that month is selected, gives nothing for an empty selection, and gives zeros for any other selected month |
| Finance.FinancePage.constructor | src/pages/Finance.js:7-9 | The page starts with no data, no selected month and loading, so the lookup gives nothing |
| Finance.FinancePage.FetchFinanceData | src/pages/Finance.js:20-48 | After the fetch resolves, the data are the mock figures stored under the requested month and loading is over |
| Finance.FinancePage.Mount | src/pages/Finance.js:11-18 | Mounting selects the current month's key and fetches figures for that key, so the lookup finds `{5000, 10}` |
| Finance.FinancePage.HandleMonthChange | src/pages/Finance.js:50-54 | Changing the month selects it and fetches figures under that same value. The lookup then finds them, unless the month input was cleared, in which case it gives nothing |

## Left out

- JSX rendering, CSS classes, the modal, search and filter toggles and the loading spinners are left out: they are view code. So is the "No students found" row (src/pages/Home.js:255, 286). So is the seat label text, which shows "(Occupied)" under the same condition that disables the option.
- src/App.js and src/components/Header.js are left out: routing, the token kept in browser storage, theme toggling and navigation.
- The `setTimeout` delays and the async plumbing are left out. A fetch or submit is modelled as completing in one step. The mock promises never reject, so the `catch` branches are not modelled: the logged errors and "An unexpected error occurred" (src/components/AddStudentModal.js:82).
- Interleaving of overlapping async calls is not modelled. Both fetches wait on `setTimeout` with the same 1000 ms delay, so two quick month changes resolve in the order they were made. The first response arrives while the second is still pending: its `finally` clears `isLoading`, and until the second resolves the page shows zeros for the newly selected month, because the stored figures are keyed by the older month (`Finance.MockLookup`, case of another selected month).
- The values that `Math.random()` draws for seat occupancy are left out. The loop picks each value nondeterministically and only the key set is specified.
- Clock reads and `Date` string parsing are left out. "Now" and dates are integer milliseconds passed in, and invalid dates (NaN) are not modelled.
- Floating point in `Math.ceil(diff / 86400000)` is modelled as exact integer ceiling division. Rounding for spans near the limit of a double's precision is not modelled.
- `toLocaleString` month names in `formatMonth` (src/pages/Finance.js:58) are left out: they need a locale library. Only the split of the key into year and month is modelled.
- `toLowerCase` is modelled on ASCII letters only; Unicode case mapping needs tables the model does not include.
- Home.Student: seat numbers and payment amounts are natural numbers. Negative or fractional JavaScript numbers are not modelled.
- Finance.MonthKey: years are natural numbers; negative years from `getFullYear()` are not modelled.
- The browser's own check of inputs marked `required`, which would stop submission before `handleSubmit` runs, is not modelled.
- The paid flag computed in `handleSubmit` is not sent anywhere in the source. The model returns it in the decision.
- The mock student list of `fetchStudents` (src/pages/Home.js:36-73) and `handleStudentAdded` (reload and close) are left out: `StudentsLoaded` accepts any list.
- No seat-overlap invariant, date-range conflict check, enrollment store or revenue aggregation is modelled. None of them exists in the code.

## Findings

| source | as written | input that shows it | evidently intended | confidence | as-written member | corrected member |
|---|---|---|---|---|---|---|
| src/pages/Home.js:268 | The amount cell's prefix is the three characters U+00E2 U+201A U+00B9 ("â‚¹"). These are the UTF-8 bytes of the rupee sign U+20B9 decoded as Windows-1252 | any paid student, e.g. `paymentAmount` 500: the cell holds "â‚¹500" | "₹500", with the single sign U+20B9 that src/pages/Finance.js:103 uses | high; not executed | Home.AmountCellAsWritten (the lemma Home.AmountCellMisencoded shows the difference) | Home.AmountCell |
