/** `Value`, the typed payload of a field, its conversions and its line protocol text. */
module Values {
  import opened Wrappers
  import opened Ints
  import opened Escape
  import opened Decimal

  /** An IEEE-754 double, by its 64 bits. */
  datatype F64 = F64(bits: bv64)

  /**
   * Rust's `Display` for `f64` (shortest decimal that reads back to the
   * same double). It is not part of this model and is taken as a parameter.
   */
  type FloatText = F64 -> string

  datatype Value = Str(s: string) | Int(i: I64) | Float(f: F64) | Bool(b: bool) {

    /** `Value::format`: the text of the value in a field segment. */
    function Format(floatText: FloatText): (r: string)
      ensures Str? ==> 2 <= |r| && r[0] == '"' && r[|r| - 1] == '"'
                       && UnescapeWith(FieldStringSpecials, r[1..|r| - 1]) == s
                       && NoBareSpecial(FieldStringSpecials, r[1..|r| - 1])
                       && |r| == |s| + CountIn(FieldStringSpecials, s) + 2
      ensures Int? ==> ParseInt(r) == Some(i) && NoLeadingZero(r) && r[|r| - 1] != 'i'
      ensures Float? ==> r == floatText(f)
      ensures Bool? ==> r == if b then "true" else "false"
    {
      match this
      case Str(s) =>
        var r := "\"" + EscapeFieldString(s) + "\"";
        assert r[1..|r| - 1] == EscapeFieldString(s);
        r
      case Int(i) => IntToDecimal(i)
      case Float(f) => floatText(f)
      case Bool(b) => if b then "true" else "false"
    }
  }

  /** The generic `From<T: ToString>` fallback, for a `T` whose text is `text`. */
  function FromString(text: string): (v: Value)
    ensures v.Str? && v.s == text
  {
    Str(text)
  }

  function FromF64(x: F64): (v: Value)
    ensures v.Float? && v.f == x
  {
    Float(x)
  }

  function FromI64(x: I64): (v: Value)
    ensures v.Int? && v.i == x
  {
    Int(x)
  }

  /** `From<u64>`: the integer variant holding `x as i64`. */
  function FromU64(x: U64): (v: Value)
    ensures v.Int? && (v.i - x) % TwoTo64 == 0
    ensures AsU64(v.i) == x
  {
    U64RoundTrip(x);
    Int(WrapToI64(x))
  }

  function FromBool(x: bool): (v: Value)
    ensures v.Bool? && v.b == x
  {
    Bool(x)
  }

  /** A `u64` below 2^63 is stored unchanged; a larger one becomes negative, less 2^64. */
  lemma FromU64Wraps(x: U64)
    ensures FromU64(x) == Int(if x < TwoTo63 then x else x - TwoTo64)
  {
    WrapU64(x);
  }

  /**
   * A reader that tells the three non-float texts apart: quoted text is a
   * string, `true`/`false` a boolean, decimal digits an integer. (The line
   * protocol itself reads bare digits as a float; see `FormatReadsBack`.)
   */
  function ParseFieldValue(t: string): Option<Value> {
    if 2 <= |t| && t[0] == '"' && t[|t| - 1] == '"' then
      Some(Str(UnescapeWith(FieldStringSpecials, t[1..|t| - 1])))
    else if t == "true" then Some(Bool(true))
    else if t == "false" then Some(Bool(false))
    else
      match ParseInt(t)
      case Some(n) => if -TwoTo63 <= n < TwoTo63 then Some(Int(n)) else None
      case None => None
  }

  /**
   * Every string, integer and boolean value reads back from its text under
   * `ParseFieldValue`. The integer text carries no `i` suffix, so the line
   * protocol's own reading takes it for a float: an `Int` field is stored
   * as a float by the server.
   */
  lemma FormatReadsBack(v: Value, floatText: FloatText)
    requires !v.Float?
    ensures ParseFieldValue(v.Format(floatText)) == Some(v)
  {
    var r := v.Format(floatText);
    if v.Int? {
      assert r[0] != '"';
      assert r != "true" && r != "false" by {
        assert IsDigit(r[0]) || r[0] == '-';
      }
    }
  }
}
