/** `Timestamp`: an epoch count or a pre-formatted string. */
module Timestamps {
  import opened Wrappers
  import opened Ints
  import opened Decimal

  datatype Timestamp = Str(s: string) | Int(i: I64) {

    /** `to_string`: a string passes through, an integer becomes its decimal digits. */
    function ToString(): (r: string)
      ensures Str? ==> r == s
      ensures Int? ==> ParseInt(r) == Some(i) && NoLeadingZero(r)
    {
      match this
      case Str(s) => s
      case Int(i) => IntToDecimal(i)
    }
  }

  /** `Default`: epoch zero. */
  function Default(): (t: Timestamp)
    ensures t.Int? && t.ToString() == "0"
  {
    Int(0)
  }

  /** `From<&str>`. */
  function FromStr(s: string): (t: Timestamp)
    ensures t.Str? && t.ToString() == s
  {
    Str(s)
  }

  /** `From<i64>`. */
  function FromI64(i: I64): (t: Timestamp)
    ensures t.Int? && ParseInt(t.ToString()) == Some(i)
  {
    Int(i)
  }
}
