/**
 * The marshaller shared by all date or date-time properties
 * (`DateOrDateTimePropertyMarshaller`): it marks date-only values with
 * VALUE=DATE, writes the value in the basic DATE form (section 3.3.4 of
 * RFC 5545) or the basic UTC DATE-TIME form (section 3.3.5), and parses text
 * tolerantly, turning a parse failure into one warning.
 */
module Marshaller {
  import opened Wrappers
  import opened Parameters
  import opened DateOrDateTime

  /** The two output patterns of the date formatter this marshaller uses. */
  datatype ISOFormat = DateBasic | UtcTimeBasic

  /**
   * The date formatter (`ICalDateFormatter`), left uninterpreted: `parse`
   * yields `None` where the formatter throws `IllegalArgumentException`.
   */
  datatype DateFormatter = DateFormatter(
    parse: string -> Option<int>,
    format: (int, ISOFormat) -> string)

  const PARSE_WARNING_PREFIX := "Could not parse date value: "

  /** The warning recorded for text that does not parse. */
  function ParseWarning(value: string): (w: string)
  {
    PARSE_WARNING_PREFIX + value
  }

  /** The caller's warnings list; the marshaller only appends to it. */
  class WarningList {
    var items: seq<string>

    constructor ()
      ensures items == []
    {
      items := [];
    }

    method Add(warning: string)
      modifies this
      ensures items == old(items) + [warning]
    {
      items := items + [warning];
    }
  }

  /** The output pattern: UTC date-time with a time of day, bare date without. */
  function WrittenFormat(hasTime: bool): (f: ISOFormat)
    ensures f == DateBasic <==> !hasTime
  {
    if hasTime then UtcTimeBasic else DateBasic
  }

  /**
   * The outgoing parameters of a property with instant `value` and time flag
   * `hasTime`: VALUE=DATE is added for a set, date-only value; nothing else
   * changes, and nothing at all otherwise.
   */
  function PreparedParameters(params: map<string, string>, value: Option<int>, hasTime: bool)
    : (r: map<string, string>)
    ensures value.Some? && !hasTime ==> MarksDate(r)
    ensures !(value.Some? && !hasTime) ==> r == params
    ensures !MarksDate(params) ==> (MarksDate(r) <==> value.Some? && !hasTime)
    ensures forall k :: k != VALUE ==> (k in r <==> k in params)
    ensures forall k :: k != VALUE && k in r ==> r[k] == params[k]
  {
    if value.Some? && !hasTime then Replace(params, VALUE, Some(DATE.token)) else params
  }

  /** What one parse leaves behind: the instant, the time flag, the warnings it adds. */
  datatype ParseResult = ParseResult(date: Option<int>, hasTime: bool, warnings: seq<string>)

  class DateOrDateTimePropertyMarshaller {
    const propertyName: string
    const formatter: DateFormatter
    /** The single unescape pass applied to the value text before parsing. */
    const unescape: string -> string

    constructor (propertyName: string, formatter: DateFormatter, unescape: string -> string)
      ensures this.propertyName == propertyName
      ensures this.formatter == formatter && this.unescape == unescape
    {
      this.propertyName := propertyName;
      this.formatter := formatter;
      this.unescape := unescape;
    }

    /** Adds VALUE=DATE to the outgoing copy of the parameters of a date-only value. */
    method PrepareParameters(property: DateOrDateTimeProperty, copy: ICalParameters)
      modifies copy
      ensures copy.entries == PreparedParameters(old(copy.entries), property.value, property.hasTime)
    {
      if property.value.Some? && !property.hasTime {
        copy.SetValue(Some(DATE));
      }
    }

    /**
     * The value text: empty for an unset value, otherwise the formatter's
     * output in the pattern the time flag selects. Being a function, it
     * cannot touch the caller's warnings list.
     */
    function WriteText(property: DateOrDateTimeProperty): (r: string)
      reads property
      ensures property.value.None? ==> r == ""
      ensures property.value.Some? && property.hasTime ==> r == formatter.format(property.value.value, UtcTimeBasic)
      ensures property.value.Some? && !property.hasTime ==> r == formatter.format(property.value.value, DateBasic)
    {
      if property.value.None? then ""
      else formatter.format(property.value.value, WrittenFormat(property.hasTime))
    }

    /**
     * The outcome of parsing `text`: the instant is whatever the formatter
     * makes of the unescaped text; on success the time flag is the presence
     * of 'T' and no warning is added; on failure the flag is false and
     * exactly one warning names the unescaped text.
     */
    function Parsed(text: string): (r: ParseResult)
      ensures r.date == formatter.parse(unescape(text))
      ensures |r.warnings| <= 1
      ensures r.date.Some? ==> r.warnings == [] && (r.hasTime <==> 'T' in unescape(text))
      ensures r.date.None? ==> !r.hasTime && r.warnings == [ParseWarning(unescape(text))]
    {
      var value := unescape(text);
      match formatter.parse(value)
      case Some(d) => ParseResult(Some(d), 'T' in value, [])
      case None => ParseResult(None, false, [ParseWarning(value)])
    }

    /**
     * The per-property factory (`newInstance`): every concrete marshaller
     * builds its property through the (instant, time flag) constructor.
     */
    method NewInstance(date: Option<int>, hasTime: bool) returns (property: DateOrDateTimeProperty)
      ensures fresh(property) && fresh(property.parameters)
      ensures property.State() == Initial(date, hasTime)
    {
      property := new DateOrDateTimeProperty.FromDate(date, hasTime);
    }

    /**
     * Parses the text of a property. A failure never escapes: it leaves an
     * unset value and appends one warning after all earlier ones.
     */
    method ParseText(text: string, parameters: ICalParameters, warnings: WarningList)
      returns (property: DateOrDateTimeProperty)
      modifies warnings
      ensures fresh(property) && fresh(property.parameters)
      ensures property.State() == Initial(Parsed(text).date, Parsed(text).hasTime)
      ensures warnings.items == old(warnings.items) + Parsed(text).warnings
    {
      var value := unescape(text);
      var date: Option<int> := None;
      var hasTime := false;
      var parsed := formatter.parse(value);
      if parsed.Some? {
        date := parsed;
        hasTime := 'T' in value;
      } else {
        warnings.Add(ParseWarning(value));
      }
      property := NewInstance(date, hasTime);
    }

    /** The warnings that parsing `texts` in order appends. */
    function ParseWarnings(texts: seq<string>): (ws: seq<string>)
    {
      if texts == [] then [] else Parsed(texts[0]).warnings + ParseWarnings(texts[1..])
    }

    /**
     * One more `ParseText` call on the same list appends that text's warnings
     * after those of the earlier texts: so after parsing `texts[..i]` one by
     * one into a list, its new entries are `ParseWarnings(texts[..i])`.
     */
    lemma {:induction false} ParseWarningsAppend(texts: seq<string>, i: nat)
      requires i < |texts|
      ensures ParseWarnings(texts[..i + 1]) == ParseWarnings(texts[..i]) + Parsed(texts[i]).warnings
    {
      if i > 0 {
        ParseWarningsAppend(texts[1..], i - 1);
        assert texts[..i + 1][1..] == texts[1..][..i];
        assert texts[..i][1..] == texts[1..][..i - 1];
        assert texts[1..][i - 1] == texts[i];
      }
    }

    /**
     * Over several parses sharing one list, the list grows by at most one
     * warning per text; it stays as it was exactly when every text parses;
     * and every warning is the one of some text that failed.
     */
    lemma {:induction false} ParseWarningsBound(texts: seq<string>)
      ensures |ParseWarnings(texts)| <= |texts|
      ensures ParseWarnings(texts) == [] <==> forall i :: 0 <= i < |texts| ==> Parsed(texts[i]).date.Some?
      ensures forall j :: 0 <= j < |ParseWarnings(texts)| ==>
                exists i :: 0 <= i < |texts| && Parsed(texts[i]).date.None?
                         && ParseWarnings(texts)[j] == ParseWarning(unescape(texts[i]))
    {
      if texts != [] {
        var rest := texts[1..];
        ParseWarningsBound(rest);
        var head := Parsed(texts[0]).warnings;
        assert ParseWarnings(texts) == head + ParseWarnings(rest);
        forall j | 0 <= j < |ParseWarnings(texts)|
          ensures exists i :: 0 <= i < |texts| && Parsed(texts[i]).date.None?
                         && ParseWarnings(texts)[j] == ParseWarning(unescape(texts[i]))
        {
          if j < |head| {
            assert ParseWarnings(texts)[j] == ParseWarning(unescape(texts[0]));
          } else {
            var i :| 0 <= i < |rest| && Parsed(rest[i]).date.None?
                   && ParseWarnings(rest)[j - |head|] == ParseWarning(unescape(rest[i]));
            assert texts[i + 1] == rest[i];
          }
        }
        if ParseWarnings(texts) == [] {
          forall i | 0 <= i < |texts| ensures Parsed(texts[i]).date.Some? {
            if i > 0 { assert texts[i] == rest[i - 1]; }
          }
        }
        if forall i :: 0 <= i < |texts| ==> Parsed(texts[i]).date.Some? {
          assert Parsed(texts[0]).date.Some?;
          forall i | 0 <= i < |rest| ensures Parsed(rest[i]).date.Some? {
            assert rest[i] == texts[i + 1];
          }
        }
      }
    }

    /**
     * The VALUE=DATE marker and the written text agree: for a set value whose
     * parameters do not already say DATE, the marker is added exactly when the
     * value has no time, and the text is written in the pattern the marker
     * announces: bare DATE with it, UTC DATE-TIME without. The precondition
     * matters: a bag that already says DATE is never cleared, see
     * DateMarkerKeptForDateTime.
     */
    lemma DateMarkerMatchesWrittenForm(property: DateOrDateTimeProperty, params: map<string, string>)
      requires property.value.Some? && !MarksDate(params)
      ensures MarksDate(PreparedParameters(params, property.value, property.hasTime)) <==> !property.hasTime
      ensures WriteText(property) == formatter.format(property.value.value,
                if MarksDate(PreparedParameters(params, property.value, property.hasTime)) then DateBasic else UtcTimeBasic)
    {
    }

    /**
     * Preparing parameters never removes VALUE: if the outgoing copy already
     * says DATE and the value has a time, DATE stays while the text is written
     * in the UTC DATE-TIME pattern, so marker and text disagree.
     */
    lemma DateMarkerKeptForDateTime(property: DateOrDateTimeProperty, params: map<string, string>)
      requires property.value.Some? && property.hasTime && MarksDate(params)
      ensures MarksDate(PreparedParameters(params, property.value, property.hasTime))
      ensures WriteText(property) == formatter.format(property.value.value, UtcTimeBasic)
    {
    }

    /**
     * Writing and then reading back keeps the instant and the time flag and
     * adds no warning, provided the formatter reads back what it wrote, the
     * unescape pass leaves formatted text alone, and only the date-time
     * pattern contains 'T'.
     */
    lemma WriteThenParse(property: DateOrDateTimeProperty)
      requires property.value.Some?
      requires var text := formatter.format(property.value.value, WrittenFormat(property.hasTime));
               && unescape(text) == text
               && formatter.parse(text) == property.value
               && ('T' in text <==> property.hasTime)
      ensures Parsed(WriteText(property)) == ParseResult(property.value, property.hasTime, [])
    {
    }
  }
}
