/**
 * The finance page: the "YYYY-MM" key of the selected month, the lookup of
 * that month's figures with its defaults, the fallbacks to 0 on display, and
 * the page state kept by mounting and by changing the month.
 */
module Finance {
  import opened Wrappers
  import opened Text

  /** One month's revenue and number of students. */
  datatype MonthEntry = MonthEntry(amount: int, count: int)

  /** The figures the page fetches; `monthlyData` may be missing. */
  datatype FinanceData = FinanceData(totalAmount: int, studentCount: int, monthlyData: Option<map<string, MonthEntry>>)

  /** The entry shown for a month that has no stored figures. */
  const EmptyMonth: MonthEntry := MonthEntry(0, 0)

  // ---------------------------------------------------------------------
  // Month keys

  /** `${year}-${String(monthIndex + 1).padStart(2, "0")}`, with `monthIndex` as from `getMonth()`. */
  function MonthKey(year: nat, monthIndex: nat): string
  {
    NatToString(year) + "-" + PadStart2(NatToString(monthIndex + 1))
  }

  /** The first two fields of `key.split("-")`, or nothing when `key` has no dash. */
  function MonthKeyParts(key: string): Option<(string, string)>
  {
    var k := IndexOf(key, '-');
    if k == |key| then None
    else
      var rest := key[k + 1..];
      Some((key[..k], rest[..IndexOf(rest, '-')]))
  }

  /** The month part of a key: two digits reading as the month, the first "0" or "1". */
  lemma MonthDigits(month: nat)
    requires 1 <= month <= 12
    ensures var p := PadStart2(NatToString(month));
      |p| == 2 && AllDigits(p) && ParseNat(p) == month && (p[0] == '0' || p[0] == '1')
  {
    var m := NatToString(month);
    ParseNatToString(month);
    if month < 10 {
      ParseNatLeadingZero(m);
    } else {
      assert NatToString(month / 10) == "1";
    }
  }

  /** A month key is the year, a dash and exactly two digits reading as the month
      number 1..12, the first of them "0" or "1". */
  lemma MonthKeyShape(year: nat, monthIndex: nat)
    requires monthIndex < 12
    ensures var key, y := MonthKey(year, monthIndex), NatToString(year);
      && |key| == |y| + 3
      && key[..|y|] == y
      && key[|y|] == '-'
      && AllDigits(key[|y| + 1..])
      && ParseNat(key[|y| + 1..]) == monthIndex + 1
      && (key[|y| + 1] == '0' || key[|y| + 1] == '1')
  {
    MonthDigits(monthIndex + 1);
    DashJoin(NatToString(year), PadStart2(NatToString(monthIndex + 1)));
  }

  /** The pieces of `y + "-" + p` can be read back at their positions. */
  lemma DashJoin(y: string, p: string)
    ensures var key := y + "-" + p;
      |key| == |y| + 1 + |p| && key[..|y|] == y && key[|y|] == '-' && key[|y| + 1..] == p
  {
    var key := y + "-" + p;
    assert key[..|y|] == y;
    assert key[|y| + 1..] == p;
  }

  /** Splitting a month key at its dashes gives back the year and the month number. */
  lemma MonthKeyRoundTrip(year: nat, monthIndex: nat)
    requires monthIndex < 12
    ensures MonthKeyParts(MonthKey(year, monthIndex)).Some?
    ensures var (y, m) := MonthKeyParts(MonthKey(year, monthIndex)).value;
      AllDigits(y) && AllDigits(m) && ParseNat(y) == year && ParseNat(m) == monthIndex + 1
  {
    MonthDigits(monthIndex + 1);
    ParseNatToString(year);
    PartsOfJoin(NatToString(year), PadStart2(NatToString(monthIndex + 1)));
  }

  /** Two digit strings joined by a dash split back into the same two strings. */
  lemma PartsOfJoin(y: string, p: string)
    requires AllDigits(y) && AllDigits(p)
    ensures MonthKeyParts(y + "-" + p) == Some((y, p))
  {
    var key := y + "-" + p;
    DashJoin(y, p);
    assert forall i :: 0 <= i < |y| ==> key[i] == y[i];
    assert IndexOf(key, '-') == |y|;
    assert IndexOf(p, '-') == |p|;
    assert p[..|p|] == p;
  }

  // ---------------------------------------------------------------------
  // Lookup and display

  /** The selected month's figures are stored in the fetched data. */
  predicate Stored(financeData: Option<FinanceData>, selectedMonth: string)
  {
    && financeData.Some?
    && financeData.value.monthlyData.Some?
    && selectedMonth != ""
    && selectedMonth in financeData.value.monthlyData.value
  }

  /** getMonthlyData: nothing without data, without monthly figures or without a
      selected month; otherwise the stored entry, or zeros when the month is absent. */
  function GetMonthlyData(financeData: Option<FinanceData>, selectedMonth: string): (r: Option<MonthEntry>)
    ensures r.None? <==> financeData.None? || financeData.value.monthlyData.None? || selectedMonth == ""
    ensures Stored(financeData, selectedMonth) ==>
      r == Some(financeData.value.monthlyData.value[selectedMonth])
    ensures r.Some? && !Stored(financeData, selectedMonth) ==> r == Some(EmptyMonth)
  {
    if financeData.None? || financeData.value.monthlyData.None? || selectedMonth == "" then None
    else
      var monthly := financeData.value.monthlyData.value;
      if selectedMonth in monthly then Some(monthly[selectedMonth]) else Some(EmptyMonth)
  }

  /** JavaScript's `x || 0` on a number, which is `x` itself: 0 is falsy but already 0. */
  function OrZero(x: int): (r: int)
    ensures r == x
  {
    if x != 0 then x else 0
  }

  /** The month's revenue card, `monthlyData?.amount || 0`: the stored amount, else 0. */
  function MonthlyRevenueShown(financeData: Option<FinanceData>, selectedMonth: string): (v: int)
    ensures v == if Stored(financeData, selectedMonth) then financeData.value.monthlyData.value[selectedMonth].amount else 0
  {
    var monthly := GetMonthlyData(financeData, selectedMonth);
    if monthly.None? then 0 else OrZero(monthly.value.amount)
  }

  /** The month's students card, `monthlyData?.count || 0`: the stored count, else 0. */
  function MonthlyStudentsShown(financeData: Option<FinanceData>, selectedMonth: string): (v: int)
    ensures v == if Stored(financeData, selectedMonth) then financeData.value.monthlyData.value[selectedMonth].count else 0
  {
    var monthly := GetMonthlyData(financeData, selectedMonth);
    if monthly.None? then 0 else OrZero(monthly.value.count)
  }

  /** The total revenue card, `financeData?.totalAmount || 0`. */
  function TotalRevenueShown(financeData: Option<FinanceData>): (v: int)
    ensures v == if financeData.Some? then financeData.value.totalAmount else 0
  {
    if financeData.None? then 0 else OrZero(financeData.value.totalAmount)
  }

  /** The total students card, `financeData?.studentCount || 0`. */
  function TotalStudentsShown(financeData: Option<FinanceData>): (v: int)
    ensures v == if financeData.Some? then financeData.value.studentCount else 0
  {
    if financeData.None? then 0 else OrZero(financeData.value.studentCount)
  }

  // ---------------------------------------------------------------------
  // The page state

  const MockMonth: MonthEntry := MonthEntry(5000, 10)

  /** The figures fetchFinanceData stores for `month`: fixed totals and one entry, under `month`. */
  function MockFinanceData(month: string): FinanceData
  {
    FinanceData(25000, 35, Some(map[month := MockMonth]))
  }

  /** Figures fetched for a month are found when that month is selected, and zeros are
      shown when another month is selected by the time they arrive. */
  lemma MockLookup(fetched: string, selected: string)
    ensures GetMonthlyData(Some(MockFinanceData(fetched)), selected) ==
      if selected == "" then None
      else if selected == fetched then Some(MockMonth)
      else Some(EmptyMonth)
  {
  }

  class FinancePage {
    var financeData: Option<FinanceData>
    var selectedMonth: string
    var isLoading: bool

    /** What the page shows for the month: `getMonthlyData()` on the current state. */
    function MonthlyData(): Option<MonthEntry>
      reads this
    {
      GetMonthlyData(financeData, selectedMonth)
    }

    constructor ()
      ensures financeData.None? && selectedMonth == "" && isLoading
      ensures MonthlyData().None?
    {
      financeData, selectedMonth, isLoading := None, "", true;
    }

    /** fetchFinanceData resolving: the figures for `month` are stored and loading ends. */
    method FetchFinanceData(month: string)
      modifies this`financeData, this`isLoading
      ensures financeData == Some(MockFinanceData(month)) && !isLoading
    {
      isLoading := true;
      financeData := Some(MockFinanceData(month));
      isLoading := false;
    }

    /** The mount effect: select the current month, given as year and `getMonth()` index,
        and fetch its figures; the lookup then finds them. */
    method Mount(year: nat, monthIndex: nat)
      modifies this`selectedMonth, this`financeData, this`isLoading
      ensures selectedMonth == MonthKey(year, monthIndex)
      ensures financeData == Some(MockFinanceData(selectedMonth)) && !isLoading
      ensures MonthlyData() == Some(MockMonth)
    {
      var currentMonth := MonthKey(year, monthIndex);
      selectedMonth := currentMonth;
      FetchFinanceData(currentMonth);
    }

    /** handleMonthChange: select `month` and fetch figures for that same month, so the
        lookup hits unless the month input was cleared. */
    method HandleMonthChange(month: string)
      modifies this`selectedMonth, this`financeData, this`isLoading
      ensures selectedMonth == month
      ensures financeData == Some(MockFinanceData(month)) && !isLoading
      ensures MonthlyData() == if month == "" then None else Some(MockMonth)
    {
      selectedMonth := month;
      FetchFinanceData(month);
    }
  }
}
