/** `Point`: the builder of one line, and its line protocol text. */
module Points {
  import opened Wrappers
  import opened Escape
  import opened Decimal
  import opened Values
  import Timestamps

  /** `parts` separated by `sep`: nothing before the first part, nothing after the last. */
  function Join(sep: string, parts: seq<string>): string
    decreases |parts|
  {
    if |parts| == 0 then ""
    else if |parts| == 1 then parts[0]
    else parts[0] + sep + Join(sep, parts[1..])
  }

  /** Adding a part at the end adds the separator only if there was a part before. */
  lemma {:induction false} JoinSnoc(sep: string, parts: seq<string>, x: string)
    ensures Join(sep, parts + [x]) == if parts == [] then x else Join(sep, parts) + sep + x
  {
    if |parts| >= 2 {
      assert (parts + [x])[1..] == parts[1..] + [x];
      JoinSnoc(sep, parts[1..], x);
    } else if |parts| == 1 {
      assert (parts + [x])[1..] == [x];
    }
  }

  /** One step of a loop that writes `parts` separated by commas after `head`. */
  lemma JoinStep(head: string, parts: seq<string>, i: nat, before: string, after: string)
    requires i < |parts|
    requires before == head + Join(",", parts[..i]) + (if 0 < i then "," else "")
    requires after == before + parts[i]
    ensures after == head + Join(",", parts[..i + 1])
  {
    TakeOneMore(parts, i);
    JoinSnoc(",", parts[..i], parts[i]);
    if 0 < i {
      Regroup(head, Join(",", parts[..i]), ",", parts[i]);
    } else {
      assert before == head;
    }
  }

  /** The first `i + 1` parts are the first `i`, then part `i`. */
  lemma TakeOneMore(parts: seq<string>, i: nat)
    requires i < |parts|
    ensures parts[..i + 1] == parts[..i] + [parts[i]]
  {
    assert parts[..i + 1] == parts[..i] + [parts[i]];
  }

  /** Regrouping a concatenation, stated once so that the loops above need not rediscover it. */
  lemma Regroup(a: string, b: string, c: string, d: string)
    ensures a + b + c + d == a + (b + c + d)
  {
  }

  lemma Regroup3(a: string, b: string, c: string)
    ensures a + b + c == a + (b + c)
  {
  }

  /** The summed length of `parts`. */
  function TotalLength(parts: seq<string>): nat {
    if parts == [] then 0 else |parts[0]| + TotalLength(parts[1..])
  }

  /** `t` is the last part of `s`. */
  predicate EndsWith(s: string, t: string) {
    |t| <= |s| && s[|s| - |t|..] == t
  }

  /**
   * The text starts with the first part and ends with the last one, and
   * holds exactly `|parts| - 1` separators besides the parts.
   */
  lemma {:induction false} JoinShape(sep: string, parts: seq<string>)
    requires parts != []
    ensures parts[0] <= Join(sep, parts)
    ensures EndsWith(Join(sep, parts), parts[|parts| - 1])
    ensures |Join(sep, parts)| == TotalLength(parts) + (|parts| - 1) * |sep|
  {
    if |parts| >= 2 {
      JoinShape(sep, parts[1..]);
      var j := Join(sep, parts);
      var tail := Join(sep, parts[1..]);
      assert j == parts[0] + sep + tail;
      assert j[|parts[0]| + |sep|..] == tail;
      assert (|parts| - 1) * |sep| == (|parts| - 2) * |sep| + |sep|;
    }
  }

  /** A tag segment: `key=value`, both escaped as keys. */
  function TagText(tag: (string, string)): string {
    EscapeKey(tag.0) + "=" + EscapeKey(tag.1)
  }

  /** A field segment: escaped key, `=`, formatted value. */
  function FieldText(field: (string, Value), floatText: FloatText): string {
    EscapeKey(field.0) + "=" + field.1.Format(floatText)
  }

  function TagTexts(tags: seq<(string, string)>): (r: seq<string>)
    ensures |r| == |tags|
  {
    seq(|tags|, i requires 0 <= i < |tags| => TagText(tags[i]))
  }

  function FieldTexts(fields: seq<(string, Value)>, floatText: FloatText): (r: seq<string>)
    ensures |r| == |fields|
  {
    seq(|fields|, i requires 0 <= i < |fields| => FieldText(fields[i], floatText))
  }

  /** The tags of a line: a comma before each tag, none at all without tags. */
  function TagSection(tags: seq<(string, string)>): string {
    if tags == [] then "" else "," + Join(",", TagTexts(tags))
  }

  /** The fields of a line: one space, then the fields separated by commas; empty without fields. */
  function FieldSection(fields: seq<(string, Value)>, floatText: FloatText): string {
    if fields == [] then "" else " " + Join(",", FieldTexts(fields, floatText))
  }

  /** The line a point serializes to, without its timestamp. */
  function Line(measurement: string, tags: seq<(string, string)>, fields: seq<(string, Value)>,
                floatText: FloatText): string
  {
    EscapeMeasurement(measurement) + TagSection(tags) + FieldSection(fields, floatText)
  }

  /**
   * The line starts with the escaped measurement; the next character is a
   * comma exactly when there are tags and a space when there are fields
   * but no tags; without fields the line ends after the tags.
   */
  lemma LineShape(measurement: string, tags: seq<(string, string)>, fields: seq<(string, Value)>,
                  floatText: FloatText)
    ensures EscapeMeasurement(measurement) <= Line(measurement, tags, fields, floatText)
    ensures |Line(measurement, tags, fields, floatText)| > |EscapeMeasurement(measurement)|
            <==> tags != [] || fields != []
    ensures tags != [] ==>
            Line(measurement, tags, fields, floatText)[|EscapeMeasurement(measurement)|] == ','
    ensures tags == [] && fields != [] ==>
            Line(measurement, tags, fields, floatText)[|EscapeMeasurement(measurement)|] == ' '
    ensures tags == [] ==>
            Line(measurement, tags, fields, floatText) == EscapeMeasurement(measurement) + FieldSection(fields, floatText)
    ensures fields == [] ==>
            Line(measurement, tags, fields, floatText) == EscapeMeasurement(measurement) + TagSection(tags)
  {
    var t := TagSection(tags);
    var f := FieldSection(fields, floatText);
    assert t == [] <==> tags == [];
    assert tags != [] ==> t[0] == ',';
    assert f == [] <==> fields == [];
    assert fields != [] ==> f[0] == ' ';
    ConcatShape(EscapeMeasurement(measurement), t, f);
  }

  /** What a concatenation of three strings looks like just after its first part. */
  lemma ConcatShape(m: string, t: string, f: string)
    ensures m <= m + t + f
    ensures |m + t + f| > |m| <==> t != [] || f != []
    ensures t != [] ==> (m + t + f)[|m|] == t[0]
    ensures t == [] && f != [] ==> (m + t + f)[|m|] == f[0]
    ensures t == [] ==> m + t + f == m + f
    ensures f == [] ==> m + t + f == m + t
  {
  }

  /** The segments of `tags + [tag]` are those of `tags`, then the segment of `tag`. */
  lemma TagTextsSnoc(tags: seq<(string, string)>, tag: (string, string))
    ensures TagTexts(tags + [tag]) == TagTexts(tags) + [TagText(tag)]
  {
    var longer := TagTexts(tags + [tag]);
    var parts := TagTexts(tags) + [TagText(tag)];
    forall i | 0 <= i < |longer|
      ensures longer[i] == parts[i]
    {
      if i < |tags| {
        assert (tags + [tag])[i] == tags[i];
      } else {
        assert (tags + [tag])[i] == tag;
      }
    }
  }

  /** Adding a tag adds `,key=value` at the end of the tag section. */
  lemma TagSectionSnoc(tags: seq<(string, string)>, tag: (string, string))
    ensures TagSection(tags + [tag]) == TagSection(tags) + "," + TagText(tag)
  {
    TagTextsSnoc(tags, tag);
    SectionSnoc(",", TagTexts(tags), TagText(tag));
  }

  /** The segments of `fields + [field]` are those of `fields`, then the segment of `field`. */
  lemma FieldTextsSnoc(fields: seq<(string, Value)>, field: (string, Value), floatText: FloatText)
    ensures FieldTexts(fields + [field], floatText) == FieldTexts(fields, floatText) + [FieldText(field, floatText)]
  {
    var longer := FieldTexts(fields + [field], floatText);
    var parts := FieldTexts(fields, floatText) + [FieldText(field, floatText)];
    forall i | 0 <= i < |longer|
      ensures longer[i] == parts[i]
    {
      if i < |fields| {
        assert (fields + [field])[i] == fields[i];
      } else {
        assert (fields + [field])[i] == field;
      }
    }
  }

  /** Adding a field adds its segment at the end of the field section, after a space or a comma. */
  lemma FieldSectionSnoc(fields: seq<(string, Value)>, field: (string, Value), floatText: FloatText)
    ensures FieldSection(fields + [field], floatText)
         == FieldSection(fields, floatText) + (if fields == [] then " " else ",") + FieldText(field, floatText)
  {
    FieldTextsSnoc(fields, field, floatText);
    SectionSnoc(" ", FieldTexts(fields, floatText), FieldText(field, floatText));
  }

  /** A section `lead` + joined parts grows by `lead` or a comma, then the new part. */
  lemma SectionSnoc(lead: string, parts: seq<string>, x: string)
    ensures lead + Join(",", parts + [x])
         == (if parts == [] then "" else lead + Join(",", parts)) + (if parts == [] then lead else ",") + x
  {
    JoinSnoc(",", parts, x);
    if parts == [] {
      assert "" + lead + x == lead + x;
    } else {
      Regroup(lead, Join(",", parts), ",", x);
    }
  }

  /** A line with one tag and one field: `measurement,key=value field=value`. */
  lemma OneTagOneFieldLine(measurement: string, tag: (string, string), field: (string, Value),
                           floatText: FloatText)
    ensures Line(measurement, [tag], [field], floatText)
         == EscapeMeasurement(measurement) + "," + TagText(tag) + " " + FieldText(field, floatText)
  {
    var empty: seq<(string, string)> := [];
    var noFields: seq<(string, Value)> := [];
    TagSectionSnoc(empty, tag);
    FieldSectionSnoc(noFields, field, floatText);
    assert empty + [tag] == [tag] && noFields + [field] == [field];
    ConcatPieces(EscapeMeasurement(measurement), TagText(tag), FieldText(field, floatText));
  }

  /** The three pieces of a one-tag, one-field line, regrouped. */
  lemma ConcatPieces(m: string, t: string, f: string)
    ensures m + ("" + "," + t) + ("" + " " + f) == m + "," + t + " " + f
  {
  }

  /** The string field `x` holding `a"b` is written `x="a\"b"`. */
  lemma StringFieldExample(floatText: FloatText)
    ensures FieldText(("x", Str("a\"b")), floatText) == "x=\"a\\\"b\""
  {
    FieldStringEscapeExample();
  }

  /** One step of the field loop: appending the next field's text extends the join by it. */
  lemma FieldStep(head: string, fields: seq<(string, Value)>, floatText: FloatText, i: nat,
                  before: string, after: string)
    requires i < |fields|
    requires before == head + Join(",", FieldTexts(fields, floatText)[..i]) + (if 0 < i then "," else "")
    requires after == before + FieldText(fields[i], floatText)
    ensures after == head + Join(",", FieldTexts(fields, floatText)[..i + 1])
  {
    JoinStep(head, FieldTexts(fields, floatText), i, before, after);
  }

  /**
   * Appends one field as the serializer's loop body writes it: the escaped
   * key, `=`, then the value as its `match` writes it.
   */
  method WriteField(builder: string, field: (string, Value), floatText: FloatText) returns (out: string)
    ensures out == builder + FieldText(field, floatText)
  {
    var (key, value) := field;
    out := builder + EscapeKey(key);
    out := out + "=";
    ghost var prefix := out;
    match value {
      case Str(s) =>
        out := out + "\"" + EscapeFieldString(s) + "\"";
        Regroup(prefix, "\"", EscapeFieldString(s), "\"");
      case Int(v) =>
        out := out + IntToDecimal(v);
      case Float(f) =>
        out := out + floatText(f);
      case Bool(b) =>
        out := out + (if b then "true" else "false");
    }
    Regroup(builder, EscapeKey(key), "=", value.Format(floatText));
  }

  class Point {
    var measurement: string
    var timestamp: Option<Timestamps.Timestamp>
    var tags: seq<(string, string)>
    var fields: seq<(string, Value)>

    /** `Point::new`. */
    constructor (measurement: string)
      ensures this.measurement == measurement
      ensures tags == [] && fields == [] && timestamp == None
    {
      this.measurement := measurement;
      tags := [];
      fields := [];
      timestamp := None;
    }

    /** `tag`: appends `(key, value)` to the tags. */
    method Tag(key: string, value: string)
      modifies this
      ensures tags == old(tags) + [(key, value)]
      ensures measurement == old(measurement) && fields == old(fields) && timestamp == old(timestamp)
    {
      tags := tags + [(key, value)];
    }

    /** `field`: appends `(key, value)` to the fields. */
    method Field(key: string, value: Value)
      modifies this
      ensures fields == old(fields) + [(key, value)]
      ensures measurement == old(measurement) && tags == old(tags) && timestamp == old(timestamp)
    {
      fields := fields + [(key, value)];
    }

    /** `timestamp`: replaces whatever timestamp was set before. */
    method SetTimestamp(t: Timestamps.Timestamp)
      modifies this
      ensures timestamp == Some(t)
      ensures measurement == old(measurement) && tags == old(tags) && fields == old(fields)
    {
      timestamp := Some(t);
    }

    /** `serialize`: the line without a timestamp, built in one buffer. */
    method Serialize(floatText: FloatText) returns (line: string)
      ensures line == Line(measurement, tags, fields, floatText)
    {
      var builder := EscapeMeasurement(measurement);
      builder := WriteTags(builder);
      builder := WriteFields(builder, floatText);
      line := builder;
    }

    /** The tag loop of `serialize`: writes the tags after `builder`, comma before each. */
    method WriteTags(builder: string) returns (out: string)
      ensures out == builder + TagSection(tags)
    {
      out := builder;
      if tags != [] {
        out := out + ",";
        ghost var head := out;
        ghost var texts := TagTexts(tags);
        var n := |tags|;
        for i := 0 to n
          invariant 0 < i < n ==> out == head + Join(",", texts[..i]) + ","
          invariant i == 0 || i == n ==> out == head + Join(",", texts[..i])
        {
          ghost var before := out;
          var key := tags[i].0;
          var value := tags[i].1;
          out := out + EscapeKey(key);
          out := out + "=";
          out := out + EscapeKey(value);
          assert out == head + Join(",", texts[..i + 1]) by {
            Regroup(before, EscapeKey(key), "=", EscapeKey(value));
            JoinStep(head, texts, i, before, out);
          }
          if i < n - 1 {
            out := out + ",";
          }
        }
        assert texts[..n] == texts;
        Regroup3(builder, ",", Join(",", texts));
      }
    }

    /** The field loop of `serialize`: a space, then the fields after `builder`, comma-separated. */
    method WriteFields(builder: string, floatText: FloatText) returns (out: string)
      ensures out == builder + FieldSection(fields, floatText)
    {
      out := builder;
      if fields != [] {
        out := out + " ";
        ghost var head := out;
        ghost var texts := FieldTexts(fields, floatText);
        var n := |fields|;
        for i := 0 to n
          invariant 0 < i < n ==> out == head + Join(",", texts[..i]) + ","
          invariant i == 0 || i == n ==> out == head + Join(",", texts[..i])
        {
          ghost var before := out;
          out := WriteField(out, fields[i], floatText);
          FieldStep(head, fields, floatText, i, before, out);
          if i < n - 1 {
            out := out + ",";
          }
        }
        assert texts[..n] == texts;
        Regroup3(builder, " ", Join(",", texts));
      }
    }

    /**
     * `serialize_with_timestamp`: the line, one space and a timestamp; the
     * override if there is one, else the point's own, else `0`.
     */
    method SerializeWithTimestamp(override: Option<Timestamps.Timestamp>, floatText: FloatText)
      returns (line: string)
      ensures override.Some? ==>
        line == Line(measurement, tags, fields, floatText) + " " + override.value.ToString()
      ensures override.None? && timestamp.Some? ==>
        line == Line(measurement, tags, fields, floatText) + " " + timestamp.value.ToString()
      ensures override.None? && timestamp.None? ==>
        line == Line(measurement, tags, fields, floatText) + " 0"
    {
      var text := Serialize(floatText);
      var ts: Timestamps.Timestamp;
      match override {
        case Some(t) =>
          ts := t;
        case None =>
          ts := timestamp.GetOr(Timestamps.FromI64(0));
      }
      line := text + " " + ts.ToString();
    }
  }

  /**
   * The builder chain of a typical point: a measurement, one tag, one field
   * and a stored timestamp, serialized without an override, give
   * `measurement,key=value field=value timestamp`.
   */
  method BuilderChainExample(measurement: string, tag: (string, string), field: (string, Value),
                             t: Timestamps.Timestamp, floatText: FloatText) returns (line: string)
    ensures line == EscapeMeasurement(measurement) + "," + TagText(tag) + " "
                    + FieldText(field, floatText) + " " + t.ToString()
  {
    var p := new Point(measurement);
    p.Tag(tag.0, tag.1);
    p.Field(field.0, field.1);
    p.SetTimestamp(t);
    line := p.SerializeWithTimestamp(None, floatText);
    OneTagOneFieldLine(measurement, tag, field, floatText);
  }
}
