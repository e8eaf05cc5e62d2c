/**
 * The DTEND property (section 3.8.2.2 of RFC 5545): the end of an event or
 * free/busy component. Its constructors only fix the instant, the time flag
 * or the raw components; they never touch the parameters.
 */
module DateEndProperty {
  import opened Wrappers
  import opened Parameters
  import opened DateOrDateTime

  class DateEnd {
    /** The inherited date or date-time state. */
    const property: DateOrDateTimeProperty

    /** An end date with a time component. */
    constructor (endDate: Option<int>)
      ensures fresh(property) && fresh(property.parameters)
      ensures property.State() == Initial(endDate, true)
    {
      property := new DateOrDateTimeProperty.FromDate(endDate, true);
    }

    /** An end date that has a time component exactly when `hasTime` holds. */
    constructor WithTime(endDate: Option<int>, hasTime: bool)
      ensures fresh(property) && fresh(property.parameters)
      ensures property.value == endDate && property.hasTime == hasTime
      ensures property.rawComponents == None
      ensures property.GetTimezoneId() == None && property.parameters.GetValue() == None
      ensures property.State() == Initial(endDate, hasTime)
    {
      property := new DateOrDateTimeProperty.FromDate(endDate, hasTime);
    }

    /** An end date built from raw date-time components. */
    constructor FromComponents(components: Option<DateTimeComponents>, hasTime: bool)
      ensures fresh(property) && fresh(property.parameters)
      ensures property.rawComponents == components && property.hasTime == hasTime
      ensures property.GetTimezoneId() == None && property.parameters.GetValue() == None
      ensures property.parameters.entries == map[]
    {
      property := new DateOrDateTimeProperty.FromComponents(components, hasTime);
    }
  }

  /**
   * The one-argument constructor is the two-argument one with a time
   * component: the two objects cannot be told apart.
   */
  method ShorthandMeansWithTime(endDate: Option<int>) returns (shorthand: DateEnd, explicit: DateEnd)
    ensures shorthand.property.State() == explicit.property.State()
    ensures shorthand.property.hasTime && shorthand.property.value == endDate
  {
    shorthand := new DateEnd(endDate);
    explicit := new DateEnd.WithTime(endDate, true);
  }
}
