/** `BitemporalMapper.BitemporalDateTime`: an immutable epoch-millisecond
    instant whose largest value, `Long.MAX_VALUE`, stands for "now". */
module Temporal {
  import opened Wrappers
  import opened Errors

  const LONG_MIN: int := -0x8000_0000_0000_0000
  const LONG_MAX: int := 0x7FFF_FFFF_FFFF_FFFF

  /** Java's `long`. Epoch values are only compared, never computed with, so
      no wrap-around arises. */
  type Long = x: int | LONG_MIN <= x <= LONG_MAX

  /** The datatype constructor builds a value unchecked; `FromDate` is the
      Java constructor taking a `Date` and `FromTimestamp` the one taking a
      `Long`. */
  datatype BitemporalDateTime = BitemporalDateTime(timestamp: Long) {

    /** The invariant the `Long` constructor enforces. */
    predicate Valid() {
      0 <= timestamp
    }

    /** "now" is the `MAX` sentinel, whatever now value the mapper was configured with. */
    predicate IsNow() {
      timestamp == MAX.timestamp
    }

    predicate IsMax() {
      timestamp == MAX.timestamp
    }

    predicate IsMin() {
      timestamp == 0
    }

    /** `Long.compareTo`: -1, 0 or 1 by the order of the timestamps. */
    function CompareTo(other: BitemporalDateTime): (r: int)
      ensures -1 <= r <= 1
      ensures r < 0 <==> timestamp < other.timestamp
      ensures r == 0 <==> timestamp == other.timestamp
      ensures r > 0 <==> timestamp > other.timestamp
    {
      if timestamp < other.timestamp then -1
      else if timestamp == other.timestamp then 0
      else 1
    }

    /** `equals(Object)`: `None` stands for `null` or an object of another class. */
    predicate Equals(o: Option<BitemporalDateTime>)
      ensures Equals(o) <==> o == Some(this)
    {
      match o
      case None => false
      case Some(that) => timestamp == that.timestamp
    }
  }

  const MAX: BitemporalDateTime := BitemporalDateTime(LONG_MAX)
  const MIN: BitemporalDateTime := BitemporalDateTime(0)

  /** The constructor taking a `Long`: it refuses a negative timestamp. */
  function FromTimestamp(timestamp: Long): (r: Result<BitemporalDateTime, IndexError>)
    ensures r.Success? <==> timestamp >= 0
    ensures r.Failure? ==> r.error == NegativeUnixTime
    ensures r.Success? ==> r.value.Valid() && r.value.timestamp == timestamp
    ensures r.Success? ==> (r.value.IsMin() <==> timestamp == 0)
  {
    if timestamp < 0 then Failure(NegativeUnixTime)
    else Success(BitemporalDateTime(timestamp))
  }

  /** `max(bt1, bt2)`: the later of the two, the second one on a tie. */
  function Max(bt1: BitemporalDateTime, bt2: BitemporalDateTime): (r: BitemporalDateTime)
    ensures r == bt1 || r == bt2
    ensures r.CompareTo(bt1) >= 0 && r.CompareTo(bt2) >= 0
    ensures bt1.CompareTo(bt2) == 0 ==> r == bt2
  {
    var result := bt1.CompareTo(bt2);
    if result <= 0 then bt2 else bt1
  }

  lemma NowIsMax(d: BitemporalDateTime)
    ensures d.IsNow() == d.IsMax()
    ensures d.IsNow() <==> d == MAX
    ensures d.IsMin() <==> d == MIN
  {
  }

  /** `compareTo` is a total order that agrees with `equals`. */
  lemma CompareToIsTotalOrder(a: BitemporalDateTime, b: BitemporalDateTime, c: BitemporalDateTime)
    ensures a.CompareTo(b) == -b.CompareTo(a)
    ensures a.CompareTo(b) == 0 <==> a.Equals(Some(b))
    ensures a.Equals(Some(b)) <==> a == b
    ensures a.CompareTo(b) <= 0 && b.CompareTo(c) <= 0 ==> a.CompareTo(c) <= 0
    ensures a.CompareTo(b) < 0 && b.CompareTo(c) < 0 ==> a.CompareTo(c) < 0
  {
  }

  /** Every value the `Long` constructor accepts lies between `MIN` and `MAX`. */
  lemma ValidBetweenMinAndMax(d: BitemporalDateTime)
    requires d.Valid()
    ensures MIN.CompareTo(d) <= 0 && d.CompareTo(MAX) <= 0
    ensures MIN.CompareTo(d) < 0 <==> !d.IsMin()
    ensures d.CompareTo(MAX) < 0 <==> !d.IsMax()
  {
  }

  /** The constructor taking a `Date`, as written: it stores the epoch value
      without the negativity check of the `Long` constructor. */
  function FromDate(millis: Long): (r: BitemporalDateTime)
    ensures r.timestamp == millis
    ensures r.Valid() <==> millis >= 0
  {
    BitemporalDateTime(millis)
  }

  /** A date before 1970 yields a value strictly below `MIN`, which is neither
      `isMin` nor accepted by the `Long` constructor. */
  lemma FromDateGoesBelowMin()
    ensures FromDate(-1).CompareTo(MIN) < 0
    ensures !FromDate(-1).IsMin() && !FromDate(-1).Valid()
    ensures FromTimestamp(-1).Failure?
  {
  }

  /** The `Date` constructor with the check the `Long` constructor makes. */
  function FromDateChecked(millis: Long): (r: Result<BitemporalDateTime, IndexError>)
    ensures r.Success? <==> millis >= 0
    ensures r.Success? ==> r.value.timestamp == millis
    ensures r == FromTimestamp(millis)
  {
    if millis < 0 then Failure(NegativeUnixTime) else Success(FromDate(millis))
  }

  /** Corrected, the `Date` constructor never yields a value below `MIN`. */
  lemma FromDateCheckedNeverBelowMin(millis: Long)
    ensures FromDateChecked(millis).Success? ==>
              MIN.CompareTo(FromDateChecked(millis).value) <= 0
  {
  }
}
