/**
 * Backslash escaping of the line protocol. The three escapers are defined
 * after the InfluxDB v1.2 line protocol reference: a backslash is put in
 * front of every special character and nothing else changes.
 */
module Escape {

  /** Characters escaped in a measurement name. */
  const MeasurementSpecials: set<char> := {',', ' '}

  /** Characters escaped in tag keys, tag values and field keys. */
  const KeySpecials: set<char> := {',', '=', ' '}

  /** Characters escaped inside a double-quoted string field value. */
  const FieldStringSpecials: set<char> := {'"', '\\'}

  /** Puts a backslash in front of every character of `s` that is in `specials`. */
  function EscapeWith(specials: set<char>, s: string): (r: string)
    ensures |s| <= |r| <= 2 * |s|
    ensures s == [] <==> r == []
  {
    if s == [] then []
    else (if s[0] in specials then ['\\', s[0]] else [s[0]]) + EscapeWith(specials, s[1..])
  }

  /**
   * The reading a line protocol parser applies: a backslash followed by a
   * special character stands for that character; any other backslash is
   * an ordinary character.
   */
  function UnescapeWith(specials: set<char>, s: string): (r: string)
    decreases |s|
  {
    if s == [] then []
    else if s[0] == '\\' && 2 <= |s| && s[1] in specials then [s[1]] + UnescapeWith(specials, s[2..])
    else [s[0]] + UnescapeWith(specials, s[1..])
  }

  /** Unescaping undoes escaping, for every set of special characters. */
  lemma {:induction false} UnescapeEscape(specials: set<char>, s: string)
    ensures UnescapeWith(specials, EscapeWith(specials, s)) == s
  {
    if s != [] {
      var rest := EscapeWith(specials, s[1..]);
      UnescapeEscape(specials, s[1..]);
      if s[0] in specials {
        assert EscapeWith(specials, s) == ['\\', s[0]] + rest;
        assert (['\\', s[0]] + rest)[2..] == rest;
      } else {
        assert EscapeWith(specials, s) == [s[0]] + rest;
        if rest != [] {
          // the character after an unescaped backslash is never special
          assert rest[0] == if s[1] in specials then '\\' else s[1];
        }
        assert ([s[0]] + rest)[1..] == rest;
      }
    }
  }

  /**
   * Every special character of `r` other than the backslash itself comes
   * right after a backslash. Where the backslash is not one of `specials`
   * (measurement names and keys), no reader takes such a character for a
   * separator; where it is, the exact length of the escape is needed too.
   */
  predicate NoBareSpecial(specials: set<char>, r: string) {
    forall j :: 0 <= j < |r| && r[j] in specials && r[j] != '\\' ==> 0 < j && r[j - 1] == '\\'
  }

  /** Escaping leaves no special character bare. */
  lemma {:induction false} SpecialsEscaped(specials: set<char>, s: string)
    ensures NoBareSpecial(specials, EscapeWith(specials, s))
  {
    if s != [] {
      var h := if s[0] in specials then ['\\', s[0]] else [s[0]];
      var t := EscapeWith(specials, s[1..]);
      SpecialsEscaped(specials, s[1..]);
      var r := h + t;
      assert r == EscapeWith(specials, s);
      forall j | 0 <= j < |r| && r[j] in specials && r[j] != '\\'
        ensures 0 < j && r[j - 1] == '\\'
      {
        if j >= |h| {
          assert r[j] == t[j - |h|];
          if j > |h| {
            assert r[j - 1] == t[j - |h| - 1];
          }
        }
      }
    }
  }

  /** The number of characters of `s` that are in `specials`. */
  function CountIn(specials: set<char>, s: string): nat {
    if s == [] then 0 else (if s[0] in specials then 1 else 0) + CountIn(specials, s[1..])
  }

  /** Escaping adds exactly one backslash per special character. */
  lemma {:induction false} EscapeLength(specials: set<char>, s: string)
    ensures |EscapeWith(specials, s)| == |s| + CountIn(specials, s)
  {
    if s != [] {
      EscapeLength(specials, s[1..]);
    }
  }

  /** `escape_measurement`: escapes commas and spaces. */
  function EscapeMeasurement(name: string): (r: string)
    ensures UnescapeWith(MeasurementSpecials, r) == name
    ensures NoBareSpecial(MeasurementSpecials, r)
  {
    UnescapeEscape(MeasurementSpecials, name);
    SpecialsEscaped(MeasurementSpecials, name);
    EscapeWith(MeasurementSpecials, name)
  }

  /** `escape_tag_and_field_keys`: escapes commas, equals signs and spaces. */
  function EscapeKey(key: string): (r: string)
    ensures UnescapeWith(KeySpecials, r) == key
    ensures NoBareSpecial(KeySpecials, r)
  {
    UnescapeEscape(KeySpecials, key);
    SpecialsEscaped(KeySpecials, key);
    EscapeWith(KeySpecials, key)
  }

  /** `escape_field_value_string`: escapes double quotes and backslashes. */
  function EscapeFieldString(value: string): (r: string)
    ensures UnescapeWith(FieldStringSpecials, r) == value
    ensures NoBareSpecial(FieldStringSpecials, r)
    ensures |r| == |value| + CountIn(FieldStringSpecials, value)
  {
    UnescapeEscape(FieldStringSpecials, value);
    SpecialsEscaped(FieldStringSpecials, value);
    EscapeLength(FieldStringSpecials, value);
    EscapeWith(FieldStringSpecials, value)
  }

  /** Text without special characters is written unchanged. */
  lemma {:induction false} EscapeWithoutSpecials(specials: set<char>, s: string)
    requires forall i :: 0 <= i < |s| ==> s[i] !in specials
    ensures EscapeWith(specials, s) == s
  {
    if s != [] {
      EscapeWithoutSpecials(specials, s[1..]);
    }
  }

  /** Escaping works character by character, so it distributes over concatenation. */
  lemma {:induction false} EscapeWithAppend(specials: set<char>, s: string, t: string)
    ensures EscapeWith(specials, s + t) == EscapeWith(specials, s) + EscapeWith(specials, t)
  {
    if s == [] {
      assert s + t == t;
    } else {
      assert (s + t)[1..] == s[1..] + t;
      EscapeWithAppend(specials, s[1..], t);
    }
  }

  /**
   * The measurement `temp,a b` is written `temp\,a\ b`. The name is given
   * in two pieces, which the proof escapes one at a time.
   */
  lemma MeasurementEscapeExample()
    ensures EscapeMeasurement("temp" + ",a b") == "temp" + "\\,a\\ b"
  {
    MeasurementEscapeHead();
    MeasurementEscapeTail();
    EscapeWithAppend(MeasurementSpecials, "temp", ",a b");
  }

  /** The first piece of the example name has nothing to escape. */
  lemma MeasurementEscapeHead()
    ensures EscapeMeasurement("temp") == "temp"
  { }

  /** The second piece of the example name escapes its comma and its space. */
  lemma MeasurementEscapeTail()
    ensures EscapeMeasurement(",a b") == "\\,a\\ b"
  { }

  /** The string value `a"b` is written `a\"b` inside its quotes. */
  lemma FieldStringEscapeExample()
    ensures EscapeFieldString("a\"b") == "a\\\"b"
  { }
}
