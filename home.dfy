/**
 * The student list page: the three-stage filter that derives the displayed
 * list from the loaded students and the search and filter controls, the
 * remaining-days column and the amount and seat cells of each row.
 */
module Home {
  import opened Wrappers
  import opened Text
  import Dates

  /** One student record as the list page holds it. Dates are milliseconds. */
  datatype Student = Student(
    id: string,
    name: string,
    phoneNumber: string,
    timeSlot: string,
    paymentAmount: nat,
    startDate: int,
    endDate: int,
    seatNumber: Option<nat>,
    email: Option<string>,
    village: Option<string>,
    isPaid: bool)

  /** The search box and the two filter selects. */
  datatype Criteria = Criteria(searchTerm: string, timeSlotFilter: string, paymentFilter: string)

  /** The select value that switches a filter off. */
  const All: string := "all"

  /** The criteria the page starts with. */
  const InitialCriteria: Criteria := Criteria("", All, All)

  // ---------------------------------------------------------------------
  // Array.prototype.filter and what it guarantees

  /** The elements of `xs` that satisfy `p`, in their original order. */
  function Filter<T>(xs: seq<T>, p: T -> bool): (r: seq<T>)
    ensures |r| <= |xs|
    ensures forall i :: 0 <= i < |r| ==> p(r[i])
    decreases |xs|
  {
    if xs == [] then [] else (if p(xs[0]) then [xs[0]] else []) + Filter(xs[1..], p)
  }

  /** `a` can be obtained from `b` by deleting elements, without reordering. */
  predicate IsSubsequence<T(==)>(a: seq<T>, b: seq<T>)
    decreases |b|
  {
    a == [] || (b != [] && ((a[0] == b[0] && IsSubsequence(a[1..], b[1..])) || IsSubsequence(a, b[1..])))
  }

  lemma {:induction false} FilterMembership<T>(xs: seq<T>, p: T -> bool, x: T)
    ensures x in Filter(xs, p) <==> x in xs && p(x)
    decreases |xs|
  {
    if xs != [] {
      FilterMembership(xs[1..], p, x);
      assert xs == [xs[0]] + xs[1..];
    }
  }

  lemma {:induction false} FilterIsSubsequence<T>(xs: seq<T>, p: T -> bool)
    ensures IsSubsequence(Filter(xs, p), xs)
    decreases |xs|
  {
    if xs != [] {
      FilterIsSubsequence(xs[1..], p);
      var rest := Filter(xs[1..], p);
      if p(xs[0]) {
        assert Filter(xs, p) == [xs[0]] + rest;
        assert Filter(xs, p)[1..] == rest;
      } else {
        assert Filter(xs, p) == rest;
      }
    }
  }

  /** Every element is kept exactly as often as it occurs, or dropped entirely. */
  lemma {:induction false} FilterMultiplicity<T>(xs: seq<T>, p: T -> bool, x: T)
    ensures multiset(Filter(xs, p))[x] == if p(x) then multiset(xs)[x] else 0
    decreases |xs|
  {
    if xs != [] {
      FilterMultiplicity(xs[1..], p, x);
      assert xs == [xs[0]] + xs[1..];
    }
  }

  lemma {:induction false} FilterAllPass<T>(xs: seq<T>, p: T -> bool)
    requires forall i :: 0 <= i < |xs| ==> p(xs[i])
    ensures Filter(xs, p) == xs
    decreases |xs|
  {
    if xs != [] {
      FilterAllPass(xs[1..], p);
    }
  }

  lemma FilterPrepend<T>(x: T, ys: seq<T>, q: T -> bool)
    ensures Filter([x] + ys, q) == (if q(x) then [x] else []) + Filter(ys, q)
  {
    assert ([x] + ys)[0] == x && ([x] + ys)[1..] == ys;
  }

  lemma {:induction false} FilterCompose<T>(xs: seq<T>, p: T -> bool, q: T -> bool, r: T -> bool)
    requires forall x :: r(x) == (p(x) && q(x))
    ensures Filter(Filter(xs, p), q) == Filter(xs, r)
    decreases |xs|
  {
    if xs != [] {
      var x, tail := xs[0], xs[1..];
      FilterCompose(tail, p, q, r);
      assert r(x) == (p(x) && q(x));
      assert Filter(xs, r) == (if r(x) then [x] else []) + Filter(tail, r);
      if p(x) {
        assert Filter(xs, p) == [x] + Filter(tail, p);
        FilterPrepend(x, Filter(tail, p), q);
      } else {
        assert Filter(xs, p) == Filter(tail, p);
      }
    }
  }

  lemma {:induction false} FilterExtensional<T>(xs: seq<T>, p: T -> bool, q: T -> bool)
    requires forall x :: p(x) == q(x)
    ensures Filter(xs, p) == Filter(xs, q)
    decreases |xs|
  {
    if xs != [] {
      FilterExtensional(xs[1..], p, q);
    }
  }

  // ---------------------------------------------------------------------
  // The three stages of filterStudents

  /** An optional text field that is present and non-empty and contains `term`, ignoring case. */
  predicate PresentContains(field: Option<string>, term: string)
  {
    field.Some? && field.value != "" && Contains(Lower(field.value), Lower(term))
  }

  /** A seat number that JavaScript treats as true: present and not 0. */
  predicate SeatTruthy(seat: Option<nat>)
  {
    seat.Some? && seat.value != 0
  }

  /** The search predicate: name, email or village contain the term ignoring case,
      the phone number contains it as typed, or the seat number reads as the term. */
  predicate MatchesSearch(s: Student, term: string)
  {
    || Contains(Lower(s.name), Lower(term))
    || PresentContains(s.email, term)
    || Contains(s.phoneNumber, term)
    || (SeatTruthy(s.seatNumber) && NatToString(s.seatNumber.value) == term)
    || PresentContains(s.village, term)
  }

  predicate SearchOk(s: Student, c: Criteria)
  {
    c.searchTerm == "" || MatchesSearch(s, c.searchTerm)
  }

  predicate SlotOk(s: Student, c: Criteria)
  {
    c.timeSlotFilter == All || s.timeSlot == c.timeSlotFilter
  }

  /** The payment stage tests the stored `isPaid` flag; any value other than
      "all" and "paid" selects the unpaid students. */
  predicate PaymentOk(s: Student, c: Criteria)
  {
    c.paymentFilter == All || s.isPaid == (c.paymentFilter == "paid")
  }

  /** A student survives all three stages. */
  predicate Kept(s: Student, c: Criteria)
  {
    SearchOk(s, c) && SlotOk(s, c) && PaymentOk(s, c)
  }

  /** The empty term occurs in every name, so on its own the search would keep everyone. */
  lemma MatchesSearchEmptyTerm(s: Student)
    ensures MatchesSearch(s, "")
  {
    assert Lower("") == "";
    assert IsPrefix("", Lower(s.name));
  }

  /** Skipping the search for an empty term keeps the same students as running it. */
  lemma SearchOkIsSearch(s: Student, c: Criteria)
    ensures SearchOk(s, c) <==> MatchesSearch(s, c.searchTerm)
  {
    if c.searchTerm == "" {
      MatchesSearchEmptyTerm(s);
    }
  }

  /** "all" keeps every student, and no student is kept under two different slots. */
  lemma SlotFiltersDisjoint(s: Student, c1: Criteria, c2: Criteria)
    requires c1.timeSlotFilter != All && c2.timeSlotFilter != All
    requires c1.timeSlotFilter != c2.timeSlotFilter
    ensures SlotOk(s, c1.(timeSlotFilter := All))
    ensures !(SlotOk(s, c1) && SlotOk(s, c2))
  {
  }

  /** "all" keeps every student, and "paid" and "unpaid" split the students: each is
      kept under exactly one of the two. */
  lemma PaymentFiltersSplit(s: Student, c: Criteria)
    ensures PaymentOk(s, c.(paymentFilter := All))
    ensures PaymentOk(s, c.(paymentFilter := "paid")) <==> s.isPaid
    ensures PaymentOk(s, c.(paymentFilter := "unpaid")) <==> !s.isPaid
  {
  }

  /** The list the page should display: the students that survive all stages, in order. */
  function Select(students: seq<Student>, c: Criteria): (r: seq<Student>)
    ensures |r| <= |students|
    ensures forall i :: 0 <= i < |r| ==> Kept(r[i], c)
  {
    Filter(students, s => Kept(s, c))
  }

  /**
   * filterStudents: copies the students and narrows the copy stage by stage,
   * applying a stage only when its control is set.
   */
  method ApplyFilters(students: seq<Student>, c: Criteria) returns (result: seq<Student>)
    ensures result == Select(students, c)
  {
    result := students;
    var searchOk := s => SearchOk(s, c);
    if c.searchTerm != "" {
      var term := c.searchTerm;
      result := Filter(result, s => MatchesSearch(s, term));
      FilterExtensional(students, s => MatchesSearch(s, term), searchOk);
    } else {
      FilterAllPass(students, searchOk);
    }
    assert result == Filter(students, searchOk);

    var slotOk := s => SearchOk(s, c) && SlotOk(s, c);
    if c.timeSlotFilter != All {
      var slot := c.timeSlotFilter;
      FilterCompose(students, searchOk, (s: Student) => s.timeSlot == slot, slotOk);
      result := Filter(result, (s: Student) => s.timeSlot == slot);
    } else {
      FilterExtensional(students, searchOk, slotOk);
    }
    assert result == Filter(students, slotOk);

    var kept := s => Kept(s, c);
    if c.paymentFilter != All {
      var isPaid := c.paymentFilter == "paid";
      FilterCompose(students, slotOk, (s: Student) => s.isPaid == isPaid, kept);
      result := Filter(result, (s: Student) => s.isPaid == isPaid);
    } else {
      FilterExtensional(students, slotOk, kept);
    }
  }

  // ---------------------------------------------------------------------
  // What the filter promises

  /** A student is displayed iff it was loaded and passes every active stage. */
  lemma SelectMembership(students: seq<Student>, c: Criteria, s: Student)
    ensures s in Select(students, c) <==>
      && s in students
      && (c.searchTerm != "" ==> MatchesSearch(s, c.searchTerm))
      && (c.timeSlotFilter != All ==> s.timeSlot == c.timeSlotFilter)
      && (c.paymentFilter != All ==> s.isPaid == (c.paymentFilter == "paid"))
  {
    FilterMembership(students, s => Kept(s, c), s);
  }

  /** The displayed list is an order-preserving sublist of the loaded one, and each
      loaded student appears in it as many times as it was loaded, or not at all. */
  lemma SelectIsSublist(students: seq<Student>, c: Criteria, s: Student)
    ensures IsSubsequence(Select(students, c), students)
    ensures multiset(Select(students, c))[s] == if Kept(s, c) then multiset(students)[s] else 0
    ensures |Select(students, c)| <= |students|
  {
    FilterIsSubsequence(students, s => Kept(s, c));
    FilterMultiplicity(students, s => Kept(s, c), s);
    SubsequenceLength(Select(students, c), students);
  }

  lemma {:induction false} SubsequenceLength<T>(a: seq<T>, b: seq<T>)
    requires IsSubsequence(a, b)
    ensures |a| <= |b|
    decreases |b|
  {
    if a != [] {
      if a[0] == b[0] && IsSubsequence(a[1..], b[1..]) {
        SubsequenceLength(a[1..], b[1..]);
      } else {
        SubsequenceLength(a, b[1..]);
      }
    }
  }

  /** With an empty search and both filters on "all", every loaded student is displayed. */
  lemma SelectInitialIsIdentity(students: seq<Student>)
    ensures Select(students, InitialCriteria) == students
  {
    FilterAllPass(students, s => Kept(s, InitialCriteria));
  }

  /** Filtering the displayed list again with the same controls changes nothing. */
  lemma SelectIdempotent(students: seq<Student>, c: Criteria)
    ensures Select(Select(students, c), c) == Select(students, c)
  {
    var kept := s => Kept(s, c);
    FilterCompose(students, kept, kept, kept);
  }

  /** With the payment filter on "all", the students shown under "paid" and those
      shown under "unpaid" together are exactly the students shown, each as often. */
  lemma SelectPaymentSplit(students: seq<Student>, c: Criteria)
    requires c.paymentFilter == All
    ensures multiset(Select(students, c.(paymentFilter := "paid"))) +
      multiset(Select(students, c.(paymentFilter := "unpaid"))) == multiset(Select(students, c))
  {
    var mp := multiset(Select(students, c.(paymentFilter := "paid")));
    var mu := multiset(Select(students, c.(paymentFilter := "unpaid")));
    var mc := multiset(Select(students, c));
    forall x: Student
      ensures (mp + mu)[x] == mc[x]
    {
      SelectPaymentSplitAt(students, c, x);
    }
    assert mp + mu == mc;
  }

  /** One student's count in the split above. */
  lemma SelectPaymentSplitAt(students: seq<Student>, c: Criteria, x: Student)
    requires c.paymentFilter == All
    ensures multiset(Select(students, c.(paymentFilter := "paid")))[x] +
      multiset(Select(students, c.(paymentFilter := "unpaid")))[x] == multiset(Select(students, c))[x]
  {
    var paid, unpaid := c.(paymentFilter := "paid"), c.(paymentFilter := "unpaid");
    SelectIsSublist(students, paid, x);
    SelectIsSublist(students, unpaid, x);
    SelectIsSublist(students, c, x);
    assert Kept(x, paid) <==> Kept(x, c) && x.isPaid;
    assert Kept(x, unpaid) <==> Kept(x, c) && !x.isPaid;
  }

  // ---------------------------------------------------------------------
  // The page state

  /** The list page's state: the loaded students, the controls and the displayed list. */
  class HomePage {
    var students: seq<Student>
    var filteredStudents: seq<Student>
    var searchTerm: string
    var timeSlotFilter: string
    var paymentFilter: string

    function CurrentCriteria(): Criteria
      reads this
    {
      Criteria(searchTerm, timeSlotFilter, paymentFilter)
    }

    /** The effect on students and the three controls keeps the displayed list current. */
    ghost predicate Valid()
      reads this
    {
      filteredStudents == Select(students, CurrentCriteria())
    }

    constructor ()
      ensures Valid()
      ensures students == [] && filteredStudents == []
      ensures CurrentCriteria() == InitialCriteria
    {
      students, filteredStudents := [], [];
      searchTerm, timeSlotFilter, paymentFilter := "", All, All;
    }

    /** filterStudents: recomputes the displayed list from the current state. */
    method FilterStudents()
      modifies this`filteredStudents
      ensures Valid()
      ensures filteredStudents == Select(students, CurrentCriteria())
    {
      filteredStudents := ApplyFilters(students, CurrentCriteria());
    }

    /** fetchStudents resolving: stores the list, shows it unfiltered, then the effect re-filters it. */
    method StudentsLoaded(fetched: seq<Student>)
      modifies this`students, this`filteredStudents
      ensures Valid()
      ensures students == fetched && CurrentCriteria() == old(CurrentCriteria())
    {
      students := fetched;
      filteredStudents := fetched;
      FilterStudents();
    }

    /** Typing in the search box, followed by the effect. */
    method SetSearchTerm(term: string)
      modifies this`searchTerm, this`filteredStudents
      ensures Valid()
      ensures searchTerm == term && students == old(students)
      ensures timeSlotFilter == old(timeSlotFilter) && paymentFilter == old(paymentFilter)
    {
      searchTerm := term;
      FilterStudents();
    }

    /** Choosing a time slot, followed by the effect. */
    method SetTimeSlotFilter(slot: string)
      modifies this`timeSlotFilter, this`filteredStudents
      ensures Valid()
      ensures timeSlotFilter == slot && students == old(students)
      ensures searchTerm == old(searchTerm) && paymentFilter == old(paymentFilter)
    {
      timeSlotFilter := slot;
      FilterStudents();
    }

    /** Choosing a payment status, followed by the effect. */
    method SetPaymentFilter(status: string)
      modifies this`paymentFilter, this`filteredStudents
      ensures Valid()
      ensures paymentFilter == status && students == old(students)
      ensures searchTerm == old(searchTerm) && timeSlotFilter == old(timeSlotFilter)
    {
      paymentFilter := status;
      FilterStudents();
    }
  }

  // ---------------------------------------------------------------------
  // Row cells

  /** calculateRemainingDays: whole days from `today` until the end date, never negative. */
  function RemainingDays(endDate: int, today: int): (d: nat)
    ensures d == 0 <==> endDate <= today
    ensures endDate > today ==> (d - 1) * Dates.MsPerDay < endDate - today <= d * Dates.MsPerDay
  {
    Dates.ClampedDayDiff(today, endDate)
  }

  /** The currency sign U+20B9, as the finance page writes it. */
  const RupeeSign: string := "\U{20B9}"

  /** The three characters the list page's amount cell actually holds before the
      amount: the UTF-8 bytes of U+20B9 read back as Windows-1252. */
  const MisencodedRupeeSign: string := "\U{00E2}\U{201A}\U{00B9}"

  const UnpaidLabel: string := "Unpaid"

  /** The amount cell with the prefix the source file holds. */
  function AmountCellAsWritten(s: Student): (r: string)
    ensures r == UnpaidLabel <==> !s.isPaid
    ensures s.isPaid ==> |r| >= 4 && r[..3] == MisencodedRupeeSign && AllDigits(r[3..]) && ParseNat(r[3..]) == s.paymentAmount
  {
    if s.isPaid then
      var r := MisencodedRupeeSign + NatToString(s.paymentAmount);
      assert r[3..] == NatToString(s.paymentAmount);
      ParseNatToString(s.paymentAmount);
      assert r[0] != UnpaidLabel[0];
      r
    else UnpaidLabel
  }

  /** The amount cell: "Unpaid" exactly for unpaid students; otherwise the rupee sign
      followed by the decimal amount. */
  function AmountCell(s: Student): (r: string)
    ensures r == UnpaidLabel <==> !s.isPaid
    ensures s.isPaid ==> |r| >= 2 && r[..1] == RupeeSign && AllDigits(r[1..]) && ParseNat(r[1..]) == s.paymentAmount
  {
    if s.isPaid then
      var r := RupeeSign + NatToString(s.paymentAmount);
      assert r[1..] == NatToString(s.paymentAmount);
      ParseNatToString(s.paymentAmount);
      assert r[0] != UnpaidLabel[0];
      r
    else UnpaidLabel
  }

  /** For every paid student the cell as written differs from the intended one:
      a paid amount of 500 shows as three stray characters and "500". */
  lemma AmountCellMisencoded(s: Student)
    requires s.isPaid
    ensures AmountCellAsWritten(s) != AmountCell(s)
    ensures s.paymentAmount == 500 ==> AmountCellAsWritten(s) == "\U{00E2}\U{201A}\U{00B9}500"
  {
  }

  const NotAssignedLabel: string := "Not Assigned"

  /** The seat cell, `seatNumber || "Not Assigned"`. */
  function SeatCell(seat: Option<nat>): (r: string)
    ensures r == NotAssignedLabel <==> !SeatTruthy(seat)
    ensures SeatTruthy(seat) ==> AllDigits(r) && ParseNat(r) == seat.value
  {
    if SeatTruthy(seat) then
      ParseNatToString(seat.value);
      assert !IsDigit(NotAssignedLabel[0]);
      NatToString(seat.value)
    else NotAssignedLabel
  }
}
