/**
  Business-day arithmetic on whole days, as numpy's `busday_count` and
  `busday_offset` do it with their default week mask (Monday to Friday)
  and no holiday list.

  A date is a day number counted from 1970-01-01, the epoch of numpy's
  `datetime64[D]`. That day was a Thursday.
 */
module BusinessDays {

  /** Day of the week: Monday = 0, ..., Sunday = 6. */
  function Weekday(d: int): (w: int)
    ensures 0 <= w < 7
  {
    (d + 3) % 7
  }

  predicate IsBusinessDay(d: int) {
    Weekday(d) < 5
  }

  /** The day after a Sunday is a Monday; otherwise the weekday goes up by one. */
  lemma WeekdayOfNextDay(d: int)
    ensures Weekday(d + 1) == if Weekday(d) == 6 then 0 else Weekday(d) + 1
  {
  }

  /** The number of business days in the half-open interval [a, b). */
  function CountForward(a: int, b: int): (n: nat)
    requires a <= b
    ensures n <= b - a
    decreases b - a
  {
    if a == b then 0
    else (if IsBusinessDay(a) then 1 else 0) + CountForward(a + 1, b)
  }

  /** The business days of [a, b), as a set: what CountForward counts. */
  ghost function BusinessDaysIn(a: int, b: int): set<int> {
    set d | a <= d < b && IsBusinessDay(d)
  }

  /**
    numpy.busday_count(begin, end): the business days of [begin, end). When
    end precedes begin, numpy swaps the two ends and shifts both one day
    later, so that the day of `end` is still never counted: the result is the
    business days of (end, begin], negated.
   */
  function BusdayCount(begin: int, end: int): (n: int)
    ensures begin <= end ==> 0 <= n <= end - begin
    ensures end < begin ==> end - begin <= n <= 0
  {
    if begin <= end then CountForward(begin, end) else -(CountForward(end + 1, begin + 1) as int)
  }

  /** CountForward counts exactly the Monday-to-Friday days of [a, b). */
  lemma {:induction false} CountIsBusinessDaysIn(a: int, b: int)
    requires a <= b
    ensures CountForward(a, b) == |BusinessDaysIn(a, b)|
    decreases b - a
  {
    if a < b {
      CountIsBusinessDaysIn(a + 1, b);
      if IsBusinessDay(a) {
        assert BusinessDaysIn(a, b) == {a} + BusinessDaysIn(a + 1, b);
      } else {
        assert BusinessDaysIn(a, b) == BusinessDaysIn(a + 1, b);
      }
    }
  }

  /** Counting over [a, c) is counting over [a, b) and then over [b, c). */
  lemma {:induction false} CountSplit(a: int, b: int, c: int)
    requires a <= b <= c
    ensures CountForward(a, c) == CountForward(a, b) + CountForward(b, c)
    decreases b - a
  {
    if a < b {
      CountSplit(a + 1, b, c);
    }
  }

  /**
    busday_count is additive over adjacent intervals taken in one direction:
    three days in increasing order, or three days in decreasing order.
   */
  lemma BusdayCountAdditive(a: int, b: int, c: int)
    requires a <= b <= c || c <= b <= a
    ensures BusdayCount(a, c) == BusdayCount(a, b) + BusdayCount(b, c)
  {
    if a <= b <= c {
      CountSplit(a, b, c);
    } else {
      CountSplit(c + 1, b + 1, a + 1);
    }
  }

  /**
    Counting backwards from b to an earlier a counts the business days of
    (a, b], negated: the day b is counted and the day a is not. So the
    reversed count differs from the negated forward count exactly by the two
    end days.
   */
  lemma BusdayCountReversed(a: int, b: int)
    requires a < b
    ensures BusdayCount(b, a) == -|set d | a < d <= b && IsBusinessDay(d)|
    ensures BusdayCount(b, a) == -BusdayCount(a, b)
                                 + (if IsBusinessDay(a) then 1 else 0)
                                 - (if IsBusinessDay(b) then 1 else 0)
  {
    CountIsBusinessDaysIn(a + 1, b + 1);
    assert BusinessDaysIn(a + 1, b + 1) == set d | a < d <= b && IsBusinessDay(d);
    CountSplit(a, a + 1, b + 1);
    CountSplit(a, b, b + 1);
    assert CountForward(a, a + 1) == (if IsBusinessDay(a) then 1 else 0);
    assert CountForward(b, b + 1) == (if IsBusinessDay(b) then 1 else 0);
  }

  /** Any seven consecutive days hold exactly five business days. */
  lemma WeekHasFiveBusinessDays(d: int)
    ensures CountForward(d, d + 7) == 5
  {
    WeekdayOfNextDay(d);
    WeekdayOfNextDay(d + 1);
    WeekdayOfNextDay(d + 2);
    WeekdayOfNextDay(d + 3);
    WeekdayOfNextDay(d + 4);
    WeekdayOfNextDay(d + 5);
    assert CountForward(d + 7, d + 7) == 0;
    assert CountForward(d + 6, d + 7) == (if IsBusinessDay(d + 6) then 1 else 0);
    assert CountForward(d + 5, d + 7) == (if IsBusinessDay(d + 5) then 1 else 0) + CountForward(d + 6, d + 7);
    assert CountForward(d + 4, d + 7) == (if IsBusinessDay(d + 4) then 1 else 0) + CountForward(d + 5, d + 7);
    assert CountForward(d + 3, d + 7) == (if IsBusinessDay(d + 3) then 1 else 0) + CountForward(d + 4, d + 7);
    assert CountForward(d + 2, d + 7) == (if IsBusinessDay(d + 2) then 1 else 0) + CountForward(d + 3, d + 7);
    assert CountForward(d + 1, d + 7) == (if IsBusinessDay(d + 1) then 1 else 0) + CountForward(d + 2, d + 7);
  }

  /** k whole weeks hold exactly 5k business days. */
  lemma {:induction false} WeeksHaveFiveBusinessDaysEach(d: int, k: nat)
    ensures CountForward(d, d + 7 * k) == 5 * k
  {
    if k > 0 {
      WeeksHaveFiveBusinessDaysEach(d, k - 1);
      WeekHasFiveBusinessDays(d + 7 * (k - 1));
      CountSplit(d, d + 7 * (k - 1), d + 7 * k);
    }
  }

  /**
    The first business day on or after d: the step Advance takes from one
    business day to the next. It is not one of busday_offset's roll modes.
   */
  function FirstBusinessDayFrom(d: int): (r: int)
    ensures d <= r <= d + 2 && IsBusinessDay(r)
    ensures forall x :: d <= x < r ==> !IsBusinessDay(x)
  {
    if Weekday(d) == 5 then d + 2
    else if Weekday(d) == 6 then d + 1
    else d
  }

  /** The business day that lies n business days after the business day d. */
  function Advance(d: int, n: nat): (r: int)
    requires IsBusinessDay(d)
    ensures IsBusinessDay(r) && d <= r
    decreases n
  {
    if n == 0 then d else Advance(FirstBusinessDayFrom(d + 1), n - 1)
  }

  /** An interval that holds no business day counts zero. */
  lemma {:induction false} NoBusinessDayCountsZero(a: int, b: int)
    requires a <= b
    requires forall x :: a <= x < b ==> !IsBusinessDay(x)
    ensures CountForward(a, b) == 0
    decreases b - a
  {
    if a < b {
      NoBusinessDayCountsZero(a + 1, b);
    }
  }

  /** From a business day to the next one there is exactly one business day: the first. */
  lemma NextBusinessDayCountsOne(d: int)
    requires IsBusinessDay(d)
    ensures CountForward(d, FirstBusinessDayFrom(d + 1)) == 1
  {
    NoBusinessDayCountsZero(d + 1, FirstBusinessDayFrom(d + 1));
  }

  /** Advancing by n business days passes exactly n business days. */
  lemma {:induction false} AdvanceCount(d: int, n: nat)
    requires IsBusinessDay(d)
    ensures CountForward(d, Advance(d, n)) == n
    decreases n
  {
    if n > 0 {
      var next := FirstBusinessDayFrom(d + 1);
      AdvanceCount(next, n - 1);
      NextBusinessDayCountsOne(d);
      CountSplit(d, next, Advance(next, n - 1));
    }
  }

  /** What numpy.busday_offset returns: a date, or the ValueError it raises. */
  datatype OffsetResult = Date(day: int) | NonBusinessDayError

  /**
    numpy.busday_offset(d, n) with its default roll='raise', for the offsets
    n >= 0 the dashboard uses: a start date that is not a business day
    raises; otherwise the result is the business day reached after passing
    exactly n business days.
   */
  function BusdayOffset(d: int, n: nat): (r: OffsetResult)
    ensures r.NonBusinessDayError? <==> !IsBusinessDay(d)
    ensures r.Date? ==> IsBusinessDay(r.day) && d <= r.day && BusdayCount(d, r.day) == n
  {
    if IsBusinessDay(d) then
      AdvanceCount(d, n);
      Date(Advance(d, n))
    else
      NonBusinessDayError
  }

  /** Two business days on or after d that are the same number of business days away from d coincide. */
  lemma OffsetIsUnique(d: int, r1: int, r2: int)
    requires d <= r1 && d <= r2
    requires IsBusinessDay(r1) && IsBusinessDay(r2)
    requires CountForward(d, r1) == CountForward(d, r2)
    ensures r1 == r2
  {
    if r1 < r2 {
      CountSplit(d, r1, r2);
    } else if r2 < r1 {
      CountSplit(d, r2, r1);
    }
  }

  /** busday_offset undoes busday_count: from a business day d, offsetting by the count to a later business day x lands on x. */
  lemma OffsetOfCount(d: int, x: int)
    requires IsBusinessDay(d) && IsBusinessDay(x) && d <= x
    ensures BusdayOffset(d, BusdayCount(d, x)) == Date(x)
  {
    var n := BusdayCount(d, x);
    AdvanceCount(d, n);
    OffsetIsUnique(d, x, Advance(d, n));
  }

  /** More business days to advance never give an earlier date; strictly more give a strictly later one. */
  lemma AdvanceMonotone(d: int, n1: nat, n2: nat)
    requires IsBusinessDay(d)
    requires n1 < n2
    ensures Advance(d, n1) < Advance(d, n2)
  {
    var r1, r2 := Advance(d, n1), Advance(d, n2);
    AdvanceCount(d, n1);
    AdvanceCount(d, n2);
    if r2 <= r1 {
      CountSplit(d, r2, r1);
    }
  }
}
