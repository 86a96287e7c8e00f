/**
 * The add-student form: the required-field check that gates submission, the
 * paid flag derived from the amount field, the day count shown between the
 * two dates, the seat choices with occupied seats disabled, and the loop that
 * fills the seat-availability map.
 */
module AddStudent {
  import opened Wrappers
  import opened Text
  import Dates

  /**
   * The form's input values. Text inputs hold strings ("" when empty); a date
   * input holds either nothing or the day it names, as the milliseconds of
   * that day's UTC midnight (what `new Date("YYYY-MM-DD")` gives).
   */
  datatype StudentForm = StudentForm(
    name: string,
    phoneNumber: string,
    timeSlot: string,
    paymentAmount: string,
    startDate: Option<int>,
    endDate: Option<int>,
    seatNumber: string,
    email: string,
    village: string,
    fatherName: string)

  const DefaultTimeSlot: string := "6hr"

  const RequiredFieldsMessage: string := "Please fill in all required fields"

  /** Name, phone number, time slot and both dates are filled in. */
  predicate RequiredFilled(f: StudentForm)
  {
    f.name != "" && f.phoneNumber != "" && f.timeSlot != "" && f.startDate.Some? && f.endDate.Some?
  }

  /** What a submit attempt decides: rejection with a message, or acceptance with the paid flag. */
  datatype Decision = Rejected(message: string) | Accepted(isPaid: bool)

  /** handleSubmit's decision: rejected exactly when a required field is empty; an accepted
      student is paid exactly when something was typed in the amount field. */
  function Decide(f: StudentForm): (d: Decision)
    ensures d.Rejected? <==> (f.name == "" || f.phoneNumber == "" || f.timeSlot == "" || f.startDate.None? || f.endDate.None?)
    ensures d.Rejected? ==> d.message == RequiredFieldsMessage
    ensures d.Accepted? ==> (d.isPaid <==> f.paymentAmount != "")
  {
    if !RequiredFilled(f) then Rejected(RequiredFieldsMessage) else Accepted(f.paymentAmount != "")
  }

  /** The optional fields (amount, seat, email, village, father's name) never decide
      whether a submission passes. */
  lemma DecideIgnoresOptionalFields(f: StudentForm, g: StudentForm)
    requires f.name == g.name && f.phoneNumber == g.phoneNumber && f.timeSlot == g.timeSlot
    requires f.startDate == g.startDate && f.endDate == g.endDate
    ensures Decide(f).Rejected? == Decide(g).Rejected?
    ensures f.paymentAmount == g.paymentAmount ==> Decide(f) == Decide(g)
  {
  }

  /** An amount of "0" counts as paid; only an empty amount field counts as unpaid. */
  lemma ZeroAmountCountsAsPaid(f: StudentForm)
    requires RequiredFilled(f)
    ensures Decide(f.(paymentAmount := "0")) == Accepted(true)
    ensures Decide(f.(paymentAmount := "")) == Accepted(false)
  {
  }

  // ---------------------------------------------------------------------
  // Seats

  const SeatCount: nat := 80

  /** Gives the comprehension below a term to trigger on. */
  predicate IsSeatBelow(j: int, n: int)
  {
    1 <= j < n
  }

  /** The seat numbers from 1 up to, not including, `n`. The bound shows finiteness,
      the predicate gives the trigger. */
  function SeatsBelow(n: int): (seats: set<int>)
    ensures forall j :: j in seats <==> 1 <= j < n
  {
    set j | 1 <= j < n && IsSeatBelow(j, n)
  }

  /** The seat numbers the form offers, 1 to 80. */
  function SeatNumbers(): (seats: set<int>)
    ensures forall i :: i in seats <==> 1 <= i <= SeatCount
  {
    SeatsBelow(SeatCount + 1)
  }

  /**
   * fetchAvailableSeats: fills a fresh map with one entry per seat 1..80. The
   * value of each entry (`Math.random() > 0.2`) is chosen nondeterministically.
   */
  method MockSeats() returns (seats: map<int, bool>)
    ensures seats.Keys == SeatNumbers()
  {
    seats := map[];
    var i := 1;
    while i <= SeatCount
      invariant 1 <= i <= SeatCount + 1
      invariant seats.Keys == SeatsBelow(i)
    {
      var free: bool := *;
      seats := seats[i := free];
      i := i + 1;
    }
  }

  /** One entry of the seat select. */
  datatype SeatOption = SeatOption(value: string, disabled: bool)

  /** `availableSeats[seat] === false`: only an explicit false marks a seat occupied. */
  predicate Occupied(availableSeats: map<int, bool>, seat: int)
  {
    seat in availableSeats && !availableSeats[seat]
  }

  const NotAssignedOption: SeatOption := SeatOption("", false)

  /** The seat select: "Not Assigned" first, then seats 1..80, each disabled when occupied. */
  function SeatOptions(availableSeats: map<int, bool>): (opts: seq<SeatOption>)
    ensures |opts| == SeatCount + 1
    ensures opts[0] == NotAssignedOption
    ensures forall k :: 1 <= k <= SeatCount ==> opts[k].value == NatToString(k)
    ensures forall k :: 1 <= k <= SeatCount ==> (opts[k].disabled <==> k in availableSeats && !availableSeats[k])
  {
    [NotAssignedOption] +
      seq(SeatCount, i requires 0 <= i < SeatCount =>
        SeatOption(NatToString(i + 1), Occupied(availableSeats, i + 1)))
  }

  /** The seat choices read as the numbers 1..80 in increasing order, and only the
      first option has the empty value. */
  lemma SeatOptionsIncreasing(availableSeats: map<int, bool>, i: nat, j: nat)
    requires 1 <= i < j <= SeatCount
    ensures AllDigits(SeatOptions(availableSeats)[i].value)
    ensures AllDigits(SeatOptions(availableSeats)[j].value)
    ensures ParseNat(SeatOptions(availableSeats)[i].value) == i
    ensures ParseNat(SeatOptions(availableSeats)[i].value) < ParseNat(SeatOptions(availableSeats)[j].value)
    ensures SeatOptions(availableSeats)[i].value != ""
  {
    ParseNatToString(i);
    ParseNatToString(j);
  }

  /** Seats missing from the map, including every seat before the map is filled, are selectable. */
  lemma UnknownSeatsSelectable(availableSeats: map<int, bool>, k: int)
    requires 1 <= k <= SeatCount && k !in availableSeats
    ensures !SeatOptions(availableSeats)[k].disabled
  {
  }

  // ---------------------------------------------------------------------
  // The form state

  /** The start of the UTC day containing `now`, the day `toISOString().split("T")[0]` names. */
  function DayStart(now: int): (d: int)
    ensures d <= now < d + Dates.MsPerDay
    ensures d % Dates.MsPerDay == 0
  {
    now - now % Dates.MsPerDay
  }

  class AddStudentModal {
    var form: StudentForm
    var daysCount: nat
    var availableSeats: map<int, bool>
    var isLoading: bool
    var error: string
    /** How many times the `onStudentAdded` callback has been called. */
    var studentAddedCalls: nat

    /** The day-count effect has run since the dates last changed. */
    ghost predicate Valid()
      reads this
    {
      form.startDate.Some? && form.endDate.Some? ==>
        daysCount == Dates.ClampedDayDiff(form.startDate.value, form.endDate.value)
    }

    /** Mounting: empty form with the default time slot and today as start date.
        The seat map stays empty until FetchAvailableSeats resolves. */
    constructor (now: int)
      ensures Valid()
      ensures form == StudentForm("", "", DefaultTimeSlot, "", Some(DayStart(now)), None, "", "", "", "")
      ensures daysCount == 0 && availableSeats == map[]
      ensures !isLoading && error == "" && studentAddedCalls == 0
    {
      form := StudentForm("", "", DefaultTimeSlot, "", Some(DayStart(now)), None, "", "", "", "");
      daysCount := 0;
      availableSeats := map[];
      isLoading := false;
      error := "";
      studentAddedCalls := 0;
    }

    /** The effect on the two dates: recompute the day count when both are set, else keep it. */
    method DaysCountEffect()
      modifies this`daysCount
      ensures Valid()
      ensures form.startDate.Some? && form.endDate.Some? ==>
        daysCount == Dates.ClampedDayDiff(form.startDate.value, form.endDate.value)
      ensures !(form.startDate.Some? && form.endDate.Some?) ==> daysCount == old(daysCount)
    {
      if form.startDate.Some? && form.endDate.Some? {
        daysCount := Dates.ClampedDayDiff(form.startDate.value, form.endDate.value);
      }
    }

    /** An edit of the inputs; the day-count effect runs when a date changed. */
    method Edit(updated: StudentForm)
      requires Valid()
      modifies this`form, this`daysCount
      ensures Valid() && form == updated
      ensures !(form.startDate.Some? && form.endDate.Some?) ==> daysCount == old(daysCount)
      ensures updated.startDate == old(form.startDate) && updated.endDate == old(form.endDate) ==>
        daysCount == old(daysCount)
    {
      var datesChanged := updated.startDate != form.startDate || updated.endDate != form.endDate;
      form := updated;
      if datesChanged {
        DaysCountEffect();
      }
    }

    /** fetchAvailableSeats resolving: the map now has exactly the keys 1..80. */
    method FetchAvailableSeats()
      requires Valid()
      modifies this`availableSeats
      ensures Valid()
      ensures availableSeats.Keys == SeatNumbers()
    {
      var seats := MockSeats();
      availableSeats := seats;
    }

    /**
     * handleSubmit: clears the error, rejects a form with an empty required
     * field (setting the message and calling nothing), and otherwise derives the
     * paid flag and calls `onStudentAdded` once, leaving the form not loading.
     */
    method HandleSubmit() returns (d: Decision)
      requires Valid()
      modifies this`error, this`isLoading, this`studentAddedCalls
      ensures Valid()
      ensures d == Decide(form)
      ensures error == if d.Rejected? then RequiredFieldsMessage else ""
      ensures studentAddedCalls == old(studentAddedCalls) + if d.Accepted? then 1 else 0
      ensures isLoading == if d.Rejected? then old(isLoading) else false
    {
      error := "";
      if !RequiredFilled(form) {
        error := RequiredFieldsMessage;
        return Rejected(RequiredFieldsMessage);
      }
      var isPaid := form.paymentAmount != "";
      isLoading := true;
      studentAddedCalls := studentAddedCalls + 1;
      isLoading := false;
      d := Accepted(isPaid);
    }
  }
}
