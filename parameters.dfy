/**
 * The property parameter bag (`ICalParameters`), reduced to the three
 * parameters this layer reads or writes: VALUE (section 3.2.20 of RFC 5545),
 * RANGE (section 3.2.13) and TZID (section 3.2.19). Each parameter name maps
 * to the text of its value; setting a parameter to `None` removes it.
 */
module Parameters {
  import opened Wrappers

  const VALUE := "VALUE"
  const RANGE := "RANGE"
  const TZID := "TZID"

  /** A VALUE parameter, kept as its token ("DATE", "DATE-TIME", ...). */
  datatype Value = Value(token: string)

  /** The value-type token that marks a date-only property. */
  const DATE: Value := Value("DATE")

  /** A RANGE parameter, kept as its token; the legal tokens are not modelled. */
  datatype Range = Range(token: string)

  /**
   * Replacing the entry `key` of a bag: `Some(v)` makes `v` its only value,
   * `None` removes it. No other entry is touched.
   */
  function Replace(m: map<string, string>, key: string, v: Option<string>): (r: map<string, string>)
    ensures key in r <==> v.Some?
    ensures v.Some? ==> r[key] == v.value
    ensures forall k :: k != key ==> (k in r <==> k in m)
    ensures forall k :: k != key && k in r ==> r[k] == m[k]
  {
    if v.Some? then m[key := v.value] else m - {key}
  }

  /** True when the bag carries VALUE=DATE. */
  predicate MarksDate(m: map<string, string>)
  {
    VALUE in m && m[VALUE] == DATE.token
  }

  class ICalParameters {
    var entries: map<string, string>

    /** A new, empty parameter bag. */
    constructor ()
      ensures entries == map[]
    {
      entries := map[];
    }

    /** The VALUE entry read back as a token, `None` when absent. */
    function GetValue(): (v: Option<Value>)
      reads this
      ensures v.Some? <==> VALUE in entries
      ensures v.Some? ==> v.value.token == entries[VALUE]
    {
      if VALUE in entries then Some(Value(entries[VALUE])) else None
    }

    method SetValue(value: Option<Value>)
      modifies this
      ensures GetValue() == value
      ensures entries == Replace(old(entries), VALUE, if value.Some? then Some(value.value.token) else None)
    {
      entries := Replace(entries, VALUE, if value.Some? then Some(value.value.token) else None);
    }

    /** The RANGE entry read back as a token, `None` when absent. */
    function GetRange(): (r: Option<Range>)
      reads this
      ensures r.Some? <==> RANGE in entries
      ensures r.Some? ==> r.value.token == entries[RANGE]
    {
      if RANGE in entries then Some(Range(entries[RANGE])) else None
    }

    method SetRange(range: Option<Range>)
      modifies this
      ensures GetRange() == range
      ensures entries == Replace(old(entries), RANGE, if range.Some? then Some(range.value.token) else None)
    {
      entries := Replace(entries, RANGE, if range.Some? then Some(range.value.token) else None);
    }

    /** The TZID entry, `None` when absent. */
    function GetTimezoneId(): (id: Option<string>)
      reads this
      ensures id.Some? <==> TZID in entries
      ensures id.Some? ==> id.value == entries[TZID]
    {
      if TZID in entries then Some(entries[TZID]) else None
    }

    method SetTimezoneId(timezoneId: Option<string>)
      modifies this
      ensures GetTimezoneId() == timezoneId
      ensures entries == Replace(old(entries), TZID, timezoneId)
    {
      entries := Replace(entries, TZID, timezoneId);
    }
  }
}
