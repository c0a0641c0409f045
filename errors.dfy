/** Why the bitemporal mapper fails, one constructor per distinct reason.
    All are `IndexException`s in the mapper, except `NullNowValue`, which
    stands for the `NullPointerException` of calling `getTime()` on a `null`
    date. */
module Errors {

  /** The four temporal columns a bitemporal mapper is configured with, in the
      order in which the mapper checks them. */
  datatype TemporalColumn = VtFrom | VtTo | TtFrom | TtTo {

    /** The position of the column in the checking order. */
    function Order(): (k: nat)
      ensures k <= 3
    {
      match this
      case VtFrom => 0
      case VtTo => 1
      case TtFrom => 2
      case TtTo => 3
    }

    /** How error messages name the column. */
    function Label(): string {
      match this
      case VtFrom => "vt_from"
      case VtTo => "vt_to"
      case TtFrom => "tt_from"
      case TtTo => "tt_to"
    }
  }

  datatype IndexError =
      /** A column name given to the constructor is blank ("<label> column name is required"). */
    | ColumnNameRequired(column: TemporalColumn)
      /** The configured now value parsed to no date: `getTime()` on `null`,
          a `NullPointerException` in the mapper. */
    | NullNowValue
      /** The date parser rejected a value; the parser itself is not part of this model. */
    | UnparsableDate
      /** A parsed epoch value is above the configured now value. */
    | ExceedsMaxValue(value: int, max: int)
      /** A `BitemporalDateTime` was built from a negative epoch value. */
    | NegativeUnixTime
      /** A record holds some, but not all, of the four temporal columns ("<label> column required"). */
    | ColumnRequired(column: TemporalColumn)
      /** `getStrategy` was asked for a case index outside 0..3. */
    | NoValidStrategy
      /** `getTree` was asked for a case index outside 0..3. */
    | NoValidTree
      /** A sort was requested on the bitemporal field `name`. */
    | SortingUnsupported(name: string)
}
