# Date and date-time properties of an iCalendar library

A Dafny model of the layer of the biweekly iCalendar library (RFC 5545) that
handles properties whose value is a DATE or a DATE-TIME:

- `Marshaller` — `DateOrDateTimePropertyMarshaller`: it adds VALUE=DATE
  (section 3.2.20 of RFC 5545) to the outgoing parameters of a date-only
  value, writes the value in the basic DATE form (section 3.3.4) or the basic
  UTC DATE-TIME form (section 3.3.5), and parses text tolerantly: the text is
  unescaped once, `hasTime` is the presence of `T`, and a parse failure
  becomes one warning appended to the caller's list instead of an exception.
  Every parsed property is built through the `newInstance` factory.
- `RecurrenceIdProperty` — the RECURRENCE-ID property (section 3.8.4.4) with
  its optional RANGE parameter (section 3.2.13) and public timezone id.
- `DateEndProperty` — the DTEND property (section 3.8.2.2) and its three
  constructors.
- `DateOrDateTime` — the shared base state (`DateOrDateTimeProperty`): the
  instant (`Option<int>`, milliseconds since the epoch, `None` for `null`),
  the `hasTime` flag, optional raw `DateTimeComponents` and the parameter bag.
- `Parameters` — the parameter bag (`ICalParameters`) as a class holding a
  `map<string, string>` from parameter name to value text; only VALUE, RANGE
  and TZID are used. Setting a parameter to `None` removes it. `Range` and
  `Value` are tokens wrapped in a datatype.

Design choices:

- The model uses composition for inheritance: `DateEnd` and `RecurrenceId`
  each hold their inherited state as a `const property:
  DateOrDateTimeProperty`. The marshaller works on that base object. The
  abstract per-property factory `newInstance` is fixed to one concrete
  `NewInstance`, which builds the base object through its (instant, time
  flag) constructor.
- The date formatter (`ICalDateFormatter.parse` / `format`) and the
  unescape pass of the marshaller base class are not shown; they are the
  function-valued fields `formatter` and `unescape` of the marshaller and
  stay uninterpreted. `parse` returning `None` stands for its
  `IllegalArgumentException`. All marshaller contracts are stated relative to
  these functions.
- The caller's `List<String>` of warnings is the class `WarningList`, whose
  `Add` appends.
- The warning text follows the code: it is "Could not parse date value: "
  (capitalised) followed by the text after unescaping, not the raw text.
- `hasTime` on input comes only from the `T` in the unescaped text; the
  VALUE parameter is never read by the parser.

## Model

| member | source | states |
|---|---|---|
| `Parameters.Replace` | src/main/java/biweekly/property/RecurrenceId.java:70-76 | setting an entry to a value makes it that value, setting it to none removes it; every other entry keeps its presence and value |
| `Parameters.ICalParameters.SetValue` | trunk/src/main/java/biweekly/property/marshaller/DateOrDateTimePropertyMarshaller.java:51 | after setting VALUE it reads back as set, and only the VALUE entry changes |
| `Parameters.ICalParameters.SetRange` | src/main/java/biweekly/property/RecurrenceId.java:75-77 | after setting RANGE it reads back as set (none removes it), and only the RANGE entry changes |
| `Parameters.ICalParameters.SetTimezoneId` | src/main/java/biweekly/property/RecurrenceId.java:56-59 | after setting TZID it reads back as set (none removes it), and only the TZID entry changes |
| `DateOrDateTime.DateOrDateTimeProperty.FromDate` | src/main/java/biweekly/property/RecurrenceId.java:47-49 | the base constructor stores the instant and the time flag, no raw components, and a fresh empty parameter bag |
| `DateOrDateTime.DateOrDateTimeProperty.FromComponents` | src/main/java/biweekly/property/DateEnd.java:158-160 | the base constructor stores the raw components and the time flag, with a fresh empty parameter bag |
| `Parameters.ICalParameters.GetValue` | trunk/src/main/java/biweekly/property/marshaller/DateOrDateTimePropertyMarshaller.java:51 | the VALUE entry read back as a token, none when absent; `SetValue` fixes what it returns |
| `Parameters.ICalParameters.GetRange` | src/main/java/biweekly/property/RecurrenceId.java:66-68 | the RANGE entry read back as a token, none when absent; `SetRange` fixes what it returns |
| `Parameters.ICalParameters.GetTimezoneId` | src/main/java/biweekly/property/RecurrenceId.java:51-54 | the TZID entry, none when absent; `SetTimezoneId` fixes what it returns |
| `DateOrDateTime.DateOrDateTimeProperty.GetTimezoneId` | src/main/java/biweekly/property/RecurrenceId.java:51-54 | the property's timezone id is the TZID entry of its bag, none when absent; `FromDate` and `FromComponents` start it at none, `SetTimezoneId` fixes it afterwards |
| `DateOrDateTime.DateOrDateTimeProperty.SetTimezoneId` | src/main/java/biweekly/property/RecurrenceId.java:56-59 | the timezone id reads back as set, and only the TZID parameter changes |
| `DateEndProperty.DateEnd.constructor` | src/main/java/biweekly/property/DateEnd.java:138-140 | `new DateEnd(d)` has value `d`, has a time component, no raw components and no parameters |
| `DateEndProperty.DateEnd.WithTime` | src/main/java/biweekly/property/DateEnd.java:148-150 | `new DateEnd(d, h)` has value `d` and time flag `h`, no raw components, no timezone id and no VALUE parameter |
| `DateEndProperty.DateEnd.FromComponents` | src/main/java/biweekly/property/DateEnd.java:158-160 | `new DateEnd(c, h)` has raw components `c` and time flag `h`, and no parameters at all |
| `DateEndProperty.ShorthandMeansWithTime` | src/main/java/biweekly/property/DateEnd.java:138-140 | `new DateEnd(d)` and `new DateEnd(d, true)` are in the same observable state, which has a time component and value `d` |
| `RecurrenceIdProperty.RecurrenceId.constructor` | src/main/java/biweekly/property/RecurrenceId.java:47-49 | a new RECURRENCE-ID stores the given instant and time flag and has no range and no timezone id |
| `RecurrenceIdProperty.RecurrenceId.GetTimezoneId` | src/main/java/biweekly/property/RecurrenceId.java:51-54 | the public timezone id is the TZID entry, none when absent; the constructor starts it at none, `SetTimezoneId` fixes it, `SetRange` keeps it |
| `RecurrenceIdProperty.RecurrenceId.GetRange` | src/main/java/biweekly/property/RecurrenceId.java:61-68 | the RANGE entry read back as a token, none when absent; the constructor starts it at none, `SetRange` fixes it, `SetTimezoneId` keeps it |
| `RecurrenceIdProperty.RecurrenceId.SetTimezoneId` | src/main/java/biweekly/property/RecurrenceId.java:51-59 | the timezone id reads back as set, the range is unaffected, and only the TZID entry changes |
| `RecurrenceIdProperty.RecurrenceId.SetRange` | src/main/java/biweekly/property/RecurrenceId.java:61-77 | the range reads back as set and none removes it; the timezone id, instant, time flag and raw components are unchanged, and only the RANGE entry of the bag changes |
| `Marshaller.WrittenFormat` | trunk/src/main/java/biweekly/property/marshaller/DateOrDateTimePropertyMarshaller.java:62 | the bare DATE pattern is chosen exactly when the value has no time |
| `Marshaller.PreparedParameters` | trunk/src/main/java/biweekly/property/marshaller/DateOrDateTimePropertyMarshaller.java:49-53 | VALUE=DATE is present afterwards for a set, date-only value; for an unset value or one with a time the bag is unchanged; when the bag did not already say DATE, the marker is present exactly when the value is set and date-only; no entry other than VALUE changes |
| `Marshaller.WarningList.Add` | trunk/src/main/java/biweekly/property/marshaller/DateOrDateTimePropertyMarshaller.java:77 | the warning is appended after all earlier ones |
| `Marshaller.DateOrDateTimePropertyMarshaller.constructor` | trunk/src/main/java/biweekly/property/marshaller/DateOrDateTimePropertyMarshaller.java:44-46 | the marshaller keeps its property name and its collaborators |
| `Marshaller.DateOrDateTimePropertyMarshaller.PrepareParameters` | trunk/src/main/java/biweekly/property/marshaller/DateOrDateTimePropertyMarshaller.java:48-53 | the outgoing copy becomes the prepared parameters of the property's value and time flag; only the copy is modified |
| `Marshaller.DateOrDateTimePropertyMarshaller.WriteText` | trunk/src/main/java/biweekly/property/marshaller/DateOrDateTimePropertyMarshaller.java:55-64 | an unset value is written as the empty string; a value with a time as the formatter's UTC DATE-TIME text; a date-only value as its DATE text; the warnings list cannot change |
| `Marshaller.DateOrDateTimePropertyMarshaller.Parsed` | trunk/src/main/java/biweekly/property/marshaller/DateOrDateTimePropertyMarshaller.java:67-81 | the instant is the formatter's parse of the unescaped text; at most one warning; on success no warning and the time flag holds exactly when the unescaped text contains `T`; on failure the flag is false and the one warning is "Could not parse date value: " followed by the unescaped text |
| `Marshaller.DateOrDateTimePropertyMarshaller.NewInstance` | trunk/src/main/java/biweekly/property/marshaller/DateOrDateTimePropertyMarshaller.java:83 | the factory returns a fresh property holding the given instant and time flag, with no raw components and no parameters |
| `Marshaller.DateOrDateTimePropertyMarshaller.ParseText` | trunk/src/main/java/biweekly/property/marshaller/DateOrDateTimePropertyMarshaller.java:66-81 | the failure never escapes: the result is always a fresh property built by the factory from the parsed instant and time flag, and the warnings list is its old contents followed by the parse's warnings (none on success, the one warning on failure) |
| `Marshaller.DateOrDateTimePropertyMarshaller.ParseWarningsAppend` | trunk/src/main/java/biweekly/property/marshaller/DateOrDateTimePropertyMarshaller.java:66-81 | the warnings that parsing `texts` in order appends are those of the earlier texts followed by the next text's own; with `ParseText`'s contract, parsing `texts[..i]` one by one into one list adds `ParseWarnings(texts[..i])` |
| `Marshaller.DateOrDateTimePropertyMarshaller.ParseWarningsBound` | trunk/src/main/java/biweekly/property/marshaller/DateOrDateTimePropertyMarshaller.java:66-81 | of the warnings that parsing `texts` in order appends: there is at most one per text; there are none exactly when every text parses; every warning names the unescaped text of some text that failed |
| `Marshaller.DateOrDateTimePropertyMarshaller.DateMarkerMatchesWrittenForm` | trunk/src/main/java/biweekly/property/marshaller/DateOrDateTimePropertyMarshaller.java:49-63 | for a set value on a bag not already saying DATE, VALUE=DATE is added exactly when the value has no time, and the text is written in the pattern the marker announces |
| `Marshaller.DateOrDateTimePropertyMarshaller.DateMarkerKeptForDateTime` | trunk/src/main/java/biweekly/property/marshaller/DateOrDateTimePropertyMarshaller.java:49-63 | VALUE=DATE is never removed: a copy that already says DATE keeps it for a value with a time, while the text is written in the UTC DATE-TIME pattern |
| `Marshaller.DateOrDateTimePropertyMarshaller.WriteThenParse` | trunk/src/main/java/biweekly/property/marshaller/DateOrDateTimePropertyMarshaller.java:56-81 | if the formatter reads back what it writes, unescaping leaves formatted text alone and only the date-time pattern contains `T`, then parsing the written text gives back the instant and the time flag with no warning |

## Left out

- Marshaller.DateOrDateTimePropertyMarshaller.NewInstance: the abstract per-property factory is fixed to the base (instant, time flag) constructor, and its result is the base object, not a `DateEnd` or `RecurrenceId`. The concrete marshallers that implement it are not part of this model, so what `ParseText` promises about the new property (no raw components, a fresh empty bag) comes from that choice.
- The date formatter's internals (digit layout, `ISOFormat` patterns, the parse/format round trip): `ICalDateFormatter` is not part of this model; it is an uninterpreted `DateFormatter` and only its two output patterns are named.
- The unescape pass and the `ICalPropertyMarshaller` base class are not part of this model; `unescape` is an uninterpreted string function.
- `DateOrDateTime.DateOrDateTimeProperty.FromComponents`: the instant the base class derives from raw components is not stated, because that conversion (and the timezone state it depends on) is not part of this model; the body leaves the instant unset.
- Conversion to `java.util.Date`/`TimeZone`, the JVM default timezone, floating time and the writer's timezone settings (DateEnd.java:97-126): they depend on external timezone state.
- `ICalWriter`, `ICalReader` and document serialisation: input/output plumbing.
- The raw-property fallback mentioned as a to-do at DateOrDateTimePropertyMarshaller.java:76 is not implemented behaviour, so text that fails to parse is dropped, as in the code.
- The legal RANGE tokens and their case-insensitive lookup: `Range` is an abstract token.
- The multi-valued nature of the parameter bag: each of the three parameters holds at most one value, which is all the shown setters produce.
- `_parseText` receives the property's parameters but never reads them; the model keeps the argument and does not use it either.
- Instants are unbounded integers rather than 64-bit milliseconds; nothing here does arithmetic on them.
