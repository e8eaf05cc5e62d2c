/**
 * The RECURRENCE-ID property (section 3.8.4.4 of RFC 5545): the original
 * start of a modified recurrence instance, with an optional RANGE parameter
 * (section 3.2.13) and a public timezone id.
 */
module RecurrenceIdProperty {
  import opened Wrappers
  import opened Parameters
  import opened DateOrDateTime

  class RecurrenceId {
    /** The inherited date or date-time state. */
    const property: DateOrDateTimeProperty

    constructor (date: Option<int>, hasTime: bool)
      ensures fresh(property) && fresh(property.parameters)
      ensures property.State() == Initial(date, hasTime)
      ensures GetRange() == None && GetTimezoneId() == None
    {
      property := new DateOrDateTimeProperty.FromDate(date, hasTime);
    }

    /** The timezone id, public here: the TZID parameter, `None` when absent. */
    function GetTimezoneId(): (id: Option<string>)
      reads property.parameters
      ensures id.Some? <==> TZID in property.parameters.entries
      ensures id.Some? ==> id.value == property.parameters.entries[TZID]
    {
      property.GetTimezoneId()
    }

    /** Only the TZID entry changes; the range stays as it was. */
    method SetTimezoneId(timezoneId: Option<string>)
      modifies property.parameters
      ensures GetTimezoneId() == timezoneId
      ensures GetRange() == old(GetRange())
      ensures property.parameters.entries == Replace(old(property.parameters.entries), TZID, timezoneId)
    {
      property.SetTimezoneId(timezoneId);
    }

    /** The range, or `None` when the parameter is absent. */
    function GetRange(): (r: Option<Range>)
      reads property.parameters
      ensures r.Some? <==> RANGE in property.parameters.entries
      ensures r.Some? ==> r.value.token == property.parameters.entries[RANGE]
    {
      property.parameters.GetRange()
    }

    /**
     * Sets the range, or removes the parameter for `None`. Only the RANGE
     * entry changes: the instant, the time flag and the timezone id stay.
     */
    method SetRange(range: Option<Range>)
      modifies property.parameters
      ensures GetRange() == range
      ensures GetTimezoneId() == old(GetTimezoneId())
      ensures property.parameters.entries
           == Replace(old(property.parameters.entries), RANGE, if range.Some? then Some(range.value.token) else None)
      ensures unchanged(property)
    {
      property.parameters.SetRange(range);
    }
  }
}
