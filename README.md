# Line protocol encoding of influxdb-client-rs, in Dafny

This project models the point encoder of the `influxdb-client` crate
(`influxdb-client/src/models.rs`). The encoder turns a data point into one
line of InfluxDB's text "line protocol":

```
<measurement>[,<tag key>=<tag value>...] <field key>=<field value>[,...] <timestamp>
```

It models and proves properties of these parts of the crate:

- `Value`, the typed payload of a field (string, `i64`, `f64`, `bool`). It
  covers the `From` conversions, including the wrapping `u64 as i64` cast, and
  `Value::format`.
- `Timestamp`, either an integer epoch count or a pre-formatted string. It
  covers its `Default`, its `From` conversions and `to_string`.
- `Point`, a builder holding a measurement, an optional timestamp, and ordered
  tags and fields. Its builder calls `new`, `tag`, `field` and `timestamp`
  update a `Point` object in place. `serialize` is a method whose loops build
  the line in a buffer. `serialize_with_timestamp` is a method that calls it.
- `Precision::to_string`, the fixed table of unit codes.

Modules, one per concern:

| file | module | models |
|---|---|---|
| `ints.dfy` | `Ints` | `i64`, `u64` and the `as` casts between them |
| `escape.dfy` | `Escape` | the three backslash escapers and the reading that undoes them |
| `decimal.dfy` | `Decimal` | decimal text of integers (`format!("{}", i)`) and a reader for it |
| `values.dfy` | `Values` | `Value`, its conversions and `format` |
| `timestamps.dfy` | `Timestamps` | `Timestamp` |
| `points.dfy` | `Points` | `Point`, the line it serializes to (`Line`) and the builder |
| `precision.dfy` | `Precisions` | `Precision` |
| `wrappers.dfy` | `Wrappers` | `Option` |

The crate's `escape` module (`escape_measurement`, `escape_tag_and_field_keys`
and `escape_field_value_string`) is not modelled from its code. The escapers
here are the per-character escapers of the InfluxDB v1.2 line protocol
reference that `models.rs:154` cites. A backslash goes in front of each special
character, and no other character changes:

- measurement names escape `,` and space;
- tag keys, tag values and field keys escape `,`, `=` and space;
- string field values escape `"` and `\`.

Each escaper is proved to be undone by the protocol's reading of backslashes
(`UnescapeEscape`), and every special character other than the backslash comes
right after a backslash (`SpecialsEscaped`). Each escaper's contract states both.
For measurement names and keys, where the backslash is not special, that means
no `,`, `=` or space is taken for a separator. For string field values, where
the backslash is special, the field-string escaper's contract also states the
exact length (`EscapeLength`: one added backslash per `"` or `\`), so every
backslash of the value is doubled. As in the source (`models.rs:168`), tag values go through
the key escaper.

`serialize` is specified by the function `Points.Line`:

- the escaped measurement;
- then, if there are tags, a comma and the tag segments joined by commas;
- then, if there are fields, a space and the field segments joined by commas.

The method writes the measurement and then runs the source's two loops over an
index `i` with the `i < n - 1` separator test. Each loop is its own method,
`WriteTags` and `WriteFields`. The body of the field loop is the method
`WriteField`, which has the same inline `match` over the value variants as the
source. It is proved to write exactly `Value.Format`'s text, which shows that
the inline match agrees with `Value::format`.

A point without tags can still have a comma before its first space, because an
escaped measurement may contain `\,`. What holds is what `LineShape` states:
the character right after the escaped measurement is a comma exactly when there
are tags.

Integer field values are written as bare decimal digits, with no `i` suffix
(`Value.Format` states that the text does not end in `i`). This is the code's
behaviour and is modelled as written. With no override and no stored timestamp,
`SerializeWithTimestamp` writes ` 0`, not "no timestamp". This is also modelled
as written.

## Model

| member | source | states |
|---|---|---|
| `Values.Value.Format` | influxdb-client/src/models.rs:46-64 | a string renders as `"` + escaped text + `"`: inside the quotes every `"` follows a backslash, the text is one character longer per `"` or `\` of the string (so each `\` is doubled), and unescaping the inside gives the string back; an integer renders as decimal text with no leading zero that reads back to the same integer and has no `i` suffix; a float renders as its `Display` text; a boolean renders as `true` or `false` |
| `Values.FormatReadsBack` | influxdb-client/src/models.rs:46-64 | every string, integer and boolean value is recovered from its formatted text by `ParseFieldValue`, a reader that tells the three non-float texts apart: their texts never collide and lose nothing. Under the line protocol's own reading, bare digits without an `i` suffix are a float, so an `Int` field comes back as a float |
| `Values.FromString` | influxdb-client/src/models.rs:16-20 | the generic fallback gives the string variant holding the value's text |
| `Values.FromF64` | influxdb-client/src/models.rs:21-25 | an `f64` gives the float variant holding the same double |
| `Values.FromI64` | influxdb-client/src/models.rs:27-31 | an `i64` gives the integer variant holding the same number |
| `Values.FromU64` | influxdb-client/src/models.rs:33-37 | a `u64` gives an integer variant congruent to it modulo 2^64; casting that back to `u64` gives the original |
| `Values.FromU64Wraps` | influxdb-client/src/models.rs:33-37 | `From<u64>` gives `Int(v)` when v < 2^63 and `Int(v - 2^64)` otherwise |
| `Values.FromBool` | influxdb-client/src/models.rs:39-43 | a `bool` gives the boolean variant holding it |
| `Ints.WrapToI64` | influxdb-client/src/models.rs:35 | `as i64` lands in the `i64` range and is congruent to its input modulo 2^64 |
| `Ints.WrapU64` | influxdb-client/src/models.rs:35 | on a `u64`, `as i64` is the identity below 2^63 and subtracts 2^64 from 2^63 up |
| `Ints.U64RoundTrip` | influxdb-client/src/models.rs:33-37 | `(v as i64) as u64 == v` for every `u64` |
| `Decimal.IntToDecimal` | influxdb-client/src/models.rs:54-56 | the decimal text of an integer starts with `-` exactly for negative numbers, is otherwise all digits, has no leading zero, and reads back to the same integer |
| `Decimal.DecimalTextUnique` | influxdb-client/src/models.rs:54-56 | any text that reads back to an integer and has no leading zero is that integer's decimal text, so the rendering is the only canonical one |
| `Decimal.NatToDecimal` | influxdb-client/src/models.rs:54-56 | the digits of a natural number are non-empty, all decimal digits, and have no leading zero |
| `Decimal.DecimalValueOfNat` | influxdb-client/src/models.rs:54-56 | the digits written for n denote n |
| `Decimal.NatToDecimalOfDigits` | influxdb-client/src/models.rs:54-56 | any digit string without a leading zero is exactly the text written for its value, so the decimal form is unique |
| `Timestamps.Timestamp.ToString` | influxdb-client/src/models.rs:107-114 | a string timestamp passes through unchanged; an integer one becomes decimal text with no leading zero that reads back to the same integer |
| `Timestamps.Default` | influxdb-client/src/models.rs:89-93 | the default timestamp is an integer one and renders as `0` |
| `Timestamps.FromStr` | influxdb-client/src/models.rs:95-99 | a timestamp made from a string renders as that string |
| `Timestamps.FromI64` | influxdb-client/src/models.rs:101-105 | a timestamp made from an `i64` is an integer one whose text reads back to that number |
| `Escape.EscapeWith` | influxdb-client/src/models.rs:159 | escaping never shortens a text and at most doubles it, and only the empty text escapes to the empty text |
| `Escape.SpecialsEscaped` | influxdb-client/src/models.rs:159 | after escaping, every special character other than the backslash comes right after a backslash; when the backslash is not itself special (measurement names and keys) none of them is left bare |
| `Escape.EscapeLength` | influxdb-client/src/models.rs:159 | escaping adds exactly one backslash per special character |
| `Escape.UnescapeEscape` | influxdb-client/src/models.rs:166-168 | for any set of special characters, reading backslash escapes undoes escaping |
| `Escape.EscapeWithoutSpecials` | influxdb-client/src/models.rs:159 | text without special characters is written unchanged |
| `Escape.EscapeWithAppend` | influxdb-client/src/models.rs:159 | escaping works character by character: the escape of a concatenation is the concatenation of the escapes |
| `Escape.EscapeMeasurement` | influxdb-client/src/models.rs:159 | `escape_measurement` is the reference's per-character escaper for `,` and space: no `,` or space is left without a backslash before it, and reading backslashes before those characters (`UnescapeWith`) gives the name back |
| `Escape.EscapeKey` | influxdb-client/src/models.rs:166-180 | `escape_tag_and_field_keys`, used for tag keys, tag values and field keys, is the reference's per-character escaper for `,`, `=` and space: none of them is left without a backslash before it, and `UnescapeWith` gives the text back |
| `Escape.EscapeFieldString` | influxdb-client/src/models.rs:49-52 | `escape_field_value_string` is the reference's per-character escaper for `"` and `\`: every `"` comes right after a backslash, the text is one character longer per `"` or `\` of the value (so each `\` is doubled), and `UnescapeWith` gives the string back |
| `Escape.MeasurementEscapeExample` | influxdb-client/src/models.rs:159 | the measurement `temp,a b` is written `temp\,a\ b` |
| `Escape.FieldStringEscapeExample` | influxdb-client/src/models.rs:187 | the string `a"b` is written `a\"b` |
| `Points.Point.constructor` | influxdb-client/src/models.rs:127-134 | `new` stores the measurement, with no tags, no fields and no timestamp |
| `Points.Point.Tag` | influxdb-client/src/models.rs:136-139 | `tag` appends `(key, value)` at the end of the tags and leaves measurement, fields and timestamp unchanged |
| `Points.Point.Field` | influxdb-client/src/models.rs:141-144 | `field` appends `(key, value)` at the end of the fields and leaves measurement, tags and timestamp unchanged |
| `Points.Point.SetTimestamp` | influxdb-client/src/models.rs:146-149 | `timestamp` stores the new timestamp whatever was there before, so the last call wins; nothing else changes |
| `Points.Point.Serialize` | influxdb-client/src/models.rs:153-208 | `serialize` returns exactly `Line` of the point: escaped measurement, tag section, field section |
| `Points.Point.WriteTags` | influxdb-client/src/models.rs:161-173 | the tag loop appends a comma and the tag segments in insertion order, with a comma between segments and none after the last; nothing is written without tags |
| `Points.Point.WriteFields` | influxdb-client/src/models.rs:175-205 | the field loop appends a space and the field segments in insertion order, comma-separated; nothing is written without fields |
| `Points.WriteField` | influxdb-client/src/models.rs:179-200 | the body of the field loop appends the escaped key, `=`, and the text of the inline `match`, which is exactly the field segment; so the match agrees with `Value::format` |
| `Points.Point.SerializeWithTimestamp` | influxdb-client/src/models.rs:210-222 | the line, one space, then the override's text if given; otherwise the point's own timestamp's text, and `0` if none was set |
| `Points.LineShape` | influxdb-client/src/models.rs:158-205 | the line starts with the escaped measurement; the next character is a comma exactly when there are tags, and a space when there are fields but no tags; with no tags it is measurement plus field section; with no fields it is measurement plus tag section |
| `Points.TagSectionSnoc` | influxdb-client/src/models.rs:136-139 | appending a tag appends exactly `,key=value` to the tag section, so the tags appear in insertion order |
| `Points.FieldSectionSnoc` | influxdb-client/src/models.rs:141-144 | appending a field appends its segment to the field section, after a space if it is the first field and after a comma otherwise |
| `Points.OneTagOneFieldLine` | influxdb-client/src/models.rs:158-205 | a point with one tag and one field serializes to `measurement,key=value fieldkey=fieldvalue`, each part escaped or formatted |
| `Points.StringFieldExample` | influxdb-client/src/models.rs:179-190 | the string field `x` holding `a"b` is written `x="a\"b"` |
| `Points.BuilderChainExample` | influxdb-client/src/models.rs:127-222 | `new`, `tag`, `field`, `timestamp` and then `serialize_with_timestamp(None)` give the measurement, the tag, the field and the stored timestamp's text, in that order and with those separators |
| `Points.JoinSnoc` | influxdb-client/src/models.rs:165-171 | adding an item at the end adds a separator only if an item came before |
| `Points.JoinShape` | influxdb-client/src/models.rs:165-171 | joined items start with the first item and end with the last, and there are exactly n-1 separators between the n items |
| `Precisions.Precision.ToString` | influxdb-client/src/models.rs:254-262 | each precision's code (`ns`, `us`, `ms`, `s`) reads back to that precision |
| `Precisions.CodesDistinct` | influxdb-client/src/models.rs:254-262 | two precisions with the same code are the same precision |

## Left out

- Float rendering (`format!("{}", f)` for `f64`, `models.rs:57-59` and `194-196`) is Rust's shortest round-trip `Display`, which is not part of this model. A double is a 64-bit pattern (`F64`), and its text is the parameter `floatText` of every operation that formats values. `FormatReadsBack` therefore excludes floats. Because integers carry no `i` suffix, a float whose text is all digits (Rust writes `1.0` as `1`) looks exactly like an integer on the line.
- The crate's `escape` module is not modelled from its code. The escapers here are the per-character escapers of the line protocol reference, as described above.
- `Points.BuilderChainExample` states a one-tag, one-field line with a timestamp in general form (any measurement, tag, field and timestamp). A literal instance such as `cpu,host=server01 value=0.64 1622547800` (measurement `cpu`, tag `host=server01`, float field `value`, timestamp 1622547800) is not stated. Evaluating the escapers and the decimal writer symbol by symbol on those literal names and that number is too expensive for the verifier. The literal examples `MeasurementEscapeExample`, `FieldStringEscapeExample` and `StringFieldExample` are stated.
- The `PointSerialize` trait (`influxdb-client/src/traits.rs`) is not a separate declaration. `serialize` and `serialize_with_timestamp` are methods of `Point`.
- The builder calls take and return the point by value in Rust (`mut self -> Self`). Here they update the single owned `Point` object in place, which gives the same final state. `Into<String>`, `Into<Value>` and `Into<Timestamp>` on the arguments are left out: keys and tag values are given as strings, field values as `Value`s built with the `From…` functions, and the timestamp of `timestamp` (`models.rs:146`) as a `Timestamp` built with `FromStr` or `FromI64`.
- The generic `From<T: ToString>` fallback is modelled only for the text that `T::to_string` would give (`FromString`). Arbitrary `ToString` implementations and the specialization that picks the typed conversions first are not modelled.
- The contracts of the three escapers and `Values.FormatReadsBack` prove that each component is recovered from its own text. No parser for a whole line is modelled. In particular, nothing is claimed about reading a line whose escaped component ends in a backslash just before a separator.
- `Timestamp`'s `Debug` implementation (chrono date formatting), `InfluxError` (built only by the HTTP transport from `reqwest` errors), and the unused `TimestampOptions` enum are not modelled.
- Allocation and the `unwrap` on `write!` into a `String`, which cannot fail, are not modelled.
