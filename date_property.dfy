/**
 * The shared state of every date or date-time property
 * (`DateOrDateTimeProperty`): the resolved instant, whether it carries a
 * time of day, the raw date-time components it may have been built from,
 * and its parameter bag.
 */
module DateOrDateTime {
  import opened Wrappers
  import opened Parameters

  /**
   * Raw date-time fields (`DateTimeComponents`); no range check is made on
   * them, callers are trusted.
   */
  datatype DateTimeComponents = DateTimeComponents(
    year: int, month: int, date: int, hour: int, minute: int, second: int, utc: bool)

  /** Everything an observer can see of a property, as one value. */
  datatype PropertyState = PropertyState(
    value: Option<int>,
    hasTime: bool,
    rawComponents: Option<DateTimeComponents>,
    parameters: map<string, string>)

  /** The state of a property that has just been built from an instant. */
  function Initial(value: Option<int>, hasTime: bool): (s: PropertyState)
  {
    PropertyState(value, hasTime, None, map[])
  }

  class DateOrDateTimeProperty {
    /** The instant in milliseconds since the epoch, `None` when unset. */
    var value: Option<int>
    var hasTime: bool
    var rawComponents: Option<DateTimeComponents>
    const parameters: ICalParameters

    function State(): (s: PropertyState)
      reads this, parameters
    {
      PropertyState(value, hasTime, rawComponents, parameters.entries)
    }

    /** Built from an instant: no raw components, no parameters. */
    constructor FromDate(value: Option<int>, hasTime: bool)
      ensures fresh(parameters)
      ensures State() == Initial(value, hasTime)
    {
      this.value := value;
      this.hasTime := hasTime;
      this.rawComponents := None;
      this.parameters := new ICalParameters();
    }

    /**
     * Built from raw components. The instant the base class derives from
     * them is not part of this model, so the contract says nothing of `value`.
     */
    constructor FromComponents(components: Option<DateTimeComponents>, hasTime: bool)
      ensures fresh(parameters)
      ensures rawComponents == components && this.hasTime == hasTime
      ensures parameters.entries == map[]
    {
      this.value := None;
      this.hasTime := hasTime;
      this.rawComponents := components;
      this.parameters := new ICalParameters();
    }

    /** The timezone id is the TZID parameter of the property's bag. */
    function GetTimezoneId(): (id: Option<string>)
      reads parameters
      ensures id.Some? <==> TZID in parameters.entries
      ensures id.Some? ==> id.value == parameters.entries[TZID]
    {
      parameters.GetTimezoneId()
    }

    method SetTimezoneId(timezoneId: Option<string>)
      modifies parameters
      ensures GetTimezoneId() == timezoneId
      ensures parameters.entries == Replace(old(parameters.entries), TZID, timezoneId)
    {
      parameters.SetTimezoneId(timezoneId);
    }
  }
}
