/** The enumerations of src/core/constant.py. */
module Constant {

  datatype Direction = Long | Short

  datatype Action = Open | Close

  datatype OrderType = Limit | Market

  datatype Status = Submitting | NotTraded | PartTraded | AllTraded | Cancelled | Rejected

  /** `Direction.value`: the string that appears in position identifiers. */
  function DirectionValue(d: Direction): (v: string)
    ensures v == "long" <==> d == Long
    ensures v == "short" <==> d == Short
  {
    match d
    case Long => "long"
    case Short => "short"
  }
}
