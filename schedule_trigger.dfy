/**
 * The schedule trigger: fires once a day at a configured time of day, on the
 * configured week days, answering with the configured build condition.
 */
module Triggers {
  import opened Remote
  import opened Util
  import opened Wrappers
  import TimeText

  class ScheduleTrigger {
    /** Where the current time comes from. */
    const clock: DateTimeProvider
    /** The `time` setting as configured. */
    var time: string
    /** The same setting as seconds after midnight. */
    var integrationTime: nat
    /** What the trigger answers when an integration is due. */
    var buildCondition: BuildCondition
    /** The days on which the trigger may fire. */
    var weekDays: seq<DayOfWeek>
    /** When the next integration is due; observable only through ShouldRunIntegration. */
    var nextIntegration: nat

    /**
     * The stored time of day is what the `time` text denotes, and the next
     * integration is due at that time of day.
     */
    ghost predicate Valid()
      reads this
    {
      integrationTime < SecondsPerDay
      && TimeText.ParseTimeOfDay(time) == Some(integrationTime)
      && TimeOfDay(nextIntegration) == integrationTime
    }

    /**
     * A trigger with default settings: midnight, IfModificationExists, all seven
     * days, and a due time at the minimum date, so it is due at once.
     */
    constructor (clock: DateTimeProvider)
      ensures Valid()
      ensures this.clock == clock
      ensures time == "00:00:00" && integrationTime == 0
      ensures buildCondition == IfModificationExists
      ensures weekDays == AllWeekDays && |weekDays| == 7
      ensures nextIntegration == 0
    {
      this.clock := clock;
      time := "00:00:00";
      integrationTime := 0;
      buildCondition := IfModificationExists;
      weekDays := AllWeekDays;
      nextIntegration := 0;
      assert TimeText.FormatTimeOfDay(0) == "00:00:00";
      TimeText.ParseFormatted(0);
    }

    /**
     * Sets `time`. Malformed text is a configuration error and changes nothing;
     * accepted text anchors the due time to today (the clock's date) at that
     * time of day, even when that moment has already passed.
     */
    method SetTime(value: string) returns (ok: bool)
      requires Valid()
      modifies this
      ensures Valid()
      ensures ok <==> TimeText.ParseTimeOfDay(value).Some?
      ensures ok ==> time == value && integrationTime == TimeText.ParseTimeOfDay(value).value
      ensures ok ==> nextIntegration == StartOfDay(clock.now) + integrationTime
      ensures !ok ==> time == old(time) && integrationTime == old(integrationTime)
                      && nextIntegration == old(nextIntegration)
      ensures buildCondition == old(buildCondition) && weekDays == old(weekDays)
    {
      var parsed := TimeText.ParseTimeOfDay(value);
      if parsed.None? {
        return false;
      }
      time := value;
      integrationTime := parsed.value;
      nextIntegration := StartOfDay(clock.now) + integrationTime;
      ok := true;
    }

    /**
     * NoBuild before the due time or on a day that is not allowed; otherwise
     * exactly the configured build condition, whichever it is.
     */
    method ShouldRunIntegration() returns (c: BuildCondition)
      ensures clock.now < nextIntegration ==> c == NoBuild
      ensures DayOfWeekOf(clock.now) !in weekDays ==> c == NoBuild
      ensures nextIntegration <= clock.now && DayOfWeekOf(clock.now) in weekDays ==> c == buildCondition
    {
      var now := clock.now;
      if nextIntegration <= now && DayOfWeekOf(now) in weekDays {
        c := buildCondition;
      } else {
        c := NoBuild;
      }
    }

    /** Moves the due time on by exactly one day, however late the integration finished. */
    method IntegrationCompleted()
      requires Valid()
      modifies this`nextIntegration
      ensures Valid()
      ensures nextIntegration == old(nextIntegration) + SecondsPerDay
    {
      NextDaySameTime(nextIntegration);
      nextIntegration := nextIntegration + SecondsPerDay;
    }
  }

  /** The configuration surface: `time` is required, the other two may be absent. */
  datatype Configuration = Configuration(
    time: string,
    buildCondition: Option<BuildCondition>,
    weekDays: Option<seq<DayOfWeek>>)

  /**
   * Loading a trigger from its configuration: absent settings keep their
   * defaults, and malformed time text fails the load (None).
   */
  method Load(clock: DateTimeProvider, config: Configuration) returns (r: Option<ScheduleTrigger>)
    ensures r.None? <==> TimeText.ParseTimeOfDay(config.time).None?
    ensures r.Some? ==> fresh(r.value) && r.value.Valid() && r.value.clock == clock
    ensures r.Some? ==> r.value.time == config.time
                        && Some(r.value.integrationTime) == TimeText.ParseTimeOfDay(config.time)
    ensures r.Some? ==> (r.value.buildCondition ==
                          if config.buildCondition.Some? then config.buildCondition.value else IfModificationExists)
    ensures r.Some? ==> (r.value.weekDays == if config.weekDays.Some? then config.weekDays.value else AllWeekDays)
    ensures r.Some? ==> r.value.nextIntegration == StartOfDay(clock.now) + r.value.integrationTime
  {
    var trigger := new ScheduleTrigger(clock);
    var ok := trigger.SetTime(config.time);
    if !ok {
      return None;
    }
    if config.buildCondition.Some? {
      trigger.buildCondition := config.buildCondition.value;
    }
    if config.weekDays.Some? {
      trigger.weekDays := config.weekDays.value;
    }
    r := Some(trigger);
  }
}
