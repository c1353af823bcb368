/** The magnitude bucket `formatNumber` picks for a value. The decimal
    rendering itself (`toFixed`) is not modelled. */
module Format {

  datatype Magnitude = Plain | Thousands | Millions | Billions | Trillions

  function Divisor(m: Magnitude): real {
    match m
    case Plain => 1.0
    case Thousands => 1000.0
    case Millions => 1000000.0
    case Billions => 1000000000.0
    case Trillions => 1000000000000.0
  }

  function Suffix(m: Magnitude): string {
    match m
    case Plain => ""
    case Thousands => "K"
    case Millions => "M"
    case Billions => "B"
    case Trillions => "T"
  }

  function Rank(m: Magnitude): nat {
    match m
    case Plain => 0
    case Thousands => 1
    case Millions => 2
    case Billions => 3
    case Trillions => 4
  }

  /** The bucket `formatNumber(num)` renders `num` in: values below 1000
      are shown as they are; any other value is divided by the bucket's
      divisor and lands in [1, 1000), except that T is open-ended. */
  function MagnitudeOf(num: real): (m: Magnitude)
    ensures m == Plain <==> num < 1000.0
    ensures m != Plain ==> 1.0 <= num / Divisor(m)
    ensures m != Trillions ==> num / Divisor(m) < 1000.0
  {
    if num < 1000.0 then Plain
    else if num < 1000000.0 then Thousands
    else if num < 1000000000.0 then Millions
    else if num < 1000000000000.0 then Billions
    else Trillions
  }

  /** A larger value never gets a smaller suffix. */
  lemma MagnitudeMonotone(a: real, b: real)
    requires a <= b
    ensures Rank(MagnitudeOf(a)) <= Rank(MagnitudeOf(b))
  {
  }
}
