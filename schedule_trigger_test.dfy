/**
 * The schedule trigger's dated scenarios, each driven through the trigger's
 * own methods with a hand-set clock and returning what the trigger answered.
 * Day numbers count from 0001-01-01: 731580 is 2004-01-01 (a Thursday),
 * 731581 2004-01-02, 731758 2004-06-27, 731759 2004-06-28, 731915 2004-12-01
 * (a Wednesday) and 731916 2004-12-02 (a Thursday).
 */
module ScheduleTriggerTest {
  import opened Remote
  import opened Util
  import opened Wrappers
  import opened Triggers
  import TimeText


  /** Configured for 23:30 at 23:25: not yet at 23:25, due at 23:31. */
  method ShouldRunIntegrationIfCalendarTimeIsAfterIntegrationTime() returns (at2325: BuildCondition, at2331: BuildCondition)
    ensures at2325 == NoBuild
    ensures at2331 == IfModificationExists
  {
    TimeText.Parses2330();
    AtSplits(731580, 23, 25, 0);
    var clock := new DateTimeProvider(At(731580, 23, 25, 0));
    var trigger := new ScheduleTrigger(clock);
    var ok := trigger.SetTime("23:30");
    trigger.buildCondition := IfModificationExists;
    at2325 := trigger.ShouldRunIntegration();
    AtSplits(731580, 23, 31, 0);
    clock.now := At(731580, 23, 31, 0);
    at2331 := trigger.ShouldRunIntegration();
  }

  /** The due time stays anchored to the day it was configured: at 01:01 next day it is still due. */
  method ShouldRunIntegrationOnTheNextDay() returns (nextDay: BuildCondition)
    ensures nextDay == IfModificationExists
  {
    TimeText.Parses2330();
    AtSplits(731580, 23, 25, 0);
    var clock := new DateTimeProvider(At(731580, 23, 25, 0));
    var trigger := new ScheduleTrigger(clock);
    var ok := trigger.SetTime("23:30");
    trigger.buildCondition := IfModificationExists;
    AtSplits(731581, 1, 1, 0);
    clock.now := At(731581, 1, 1, 0);
    nextDay := trigger.ShouldRunIntegration();
  }

  /**
   * Due at 14:30, completed at 15:00: not due again at 15:00 that day, due at
   * 15:00 the next day.
   */
  method ShouldIncrementTheIntegrationTimeToTheNextDayAfterIntegrationIsCompleted()
    returns (due: BuildCondition, afterCompletion: BuildCondition, nextDay: BuildCondition)
    ensures due == IfModificationExists
    ensures afterCompletion == NoBuild
    ensures nextDay == IfModificationExists
  {
    TimeText.Parses1430();
    AtSplits(731758, 13, 0, 0);
    var clock := new DateTimeProvider(At(731758, 13, 0, 0));
    var trigger := new ScheduleTrigger(clock);
    var ok := trigger.SetTime("14:30");
    trigger.buildCondition := IfModificationExists;
    AtSplits(731758, 15, 0, 0);
    clock.now := At(731758, 15, 0, 0);
    due := trigger.ShouldRunIntegration();
    trigger.IntegrationCompleted();
    afterCompletion := trigger.ShouldRunIntegration();
    AtSplits(731759, 15, 0, 0);
    clock.now := At(731759, 15, 0, 0);
    nextDay := trigger.ShouldRunIntegration();
  }

  /**
   * One round of the next scenario: at 23:25 on 2004-01-01 the trigger is set
   * to 23:30 with `condition`, asked, then asked again at 23:31.
   */
  method ConfigureAndAsk(clock: DateTimeProvider, trigger: ScheduleTrigger, condition: BuildCondition)
    returns (early: BuildCondition, late: BuildCondition)
    requires trigger.Valid() && trigger.clock == clock && trigger.weekDays == AllWeekDays
    modifies clock, trigger
    ensures trigger.Valid() && trigger.weekDays == AllWeekDays
    ensures early == NoBuild && late == condition
  {
    TimeText.Parses2330();
    AtSplits(731580, 23, 25, 0);
    AtSplits(731580, 23, 31, 0);
    clock.now := At(731580, 23, 25, 0);
    var ok := trigger.SetTime("23:30");
    trigger.buildCondition := condition;
    early := trigger.ShouldRunIntegration();
    clock.now := At(731580, 23, 31, 0);
    late := trigger.ShouldRunIntegration();
  }

  /**
   * For every build condition in turn, on one trigger: reconfigured for 23:30
   * at 23:25 it answers NoBuild, and at 23:31 exactly that condition.
   */
  method ShouldReturnSpecifiedBuildConditionWhenShouldRunIntegration()
    returns (before: seq<BuildCondition>, after: seq<BuildCondition>)
    ensures |before| == |after| == 3
    ensures forall i :: 0 <= i < 3 ==> before[i] == NoBuild
    ensures after == [NoBuild, IfModificationExists, ForceBuild]
  {
    var conditions := [NoBuild, IfModificationExists, ForceBuild];
    var clock := new DateTimeProvider(0);
    var trigger := new ScheduleTrigger(clock);
    before, after := [], [];
    for k := 0 to |conditions|
      invariant trigger.Valid() && trigger.clock == clock && trigger.weekDays == AllWeekDays
      invariant |before| == |after| == k
      invariant forall i :: 0 <= i < k ==> before[i] == NoBuild
      invariant after == conditions[..k]
    {
      var early, late := ConfigureAndAsk(clock, trigger, conditions[k]);
      assert conditions[..k + 1] == conditions[..k] + [conditions[k]];
      before, after := before + [early], after + [late];
    }
  }

  /** Allowed days Monday and Wednesday: fires on a Wednesday, not on a Thursday. */
  method ShouldOnlyRunOnSpecifiedDays() returns (wednesday: BuildCondition, thursday: BuildCondition)
    ensures wednesday == ForceBuild
    ensures thursday == NoBuild
  {
    var clock := new DateTimeProvider(0);
    var trigger := new ScheduleTrigger(clock);
    trigger.weekDays := [Monday, Wednesday];
    trigger.buildCondition := ForceBuild;
    AtSplits(731915, 0, 0, 0);
    clock.now := At(731915, 0, 0, 0);
    wednesday := trigger.ShouldRunIntegration();
    AtSplits(731916, 0, 0, 0);
    clock.now := At(731916, 0, 0, 0);
    thursday := trigger.ShouldRunIntegration();
  }

  /** Every setting given: the trigger exposes exactly the configured values. */
  method ShouldFullyPopulateFromReflector()
    returns (loaded: bool, time: string, firstDay: DayOfWeek, secondDay: DayOfWeek, condition: BuildCondition)
    ensures loaded
    ensures time == "12:00:00"
    ensures firstDay == Monday && secondDay == Tuesday
    ensures condition == ForceBuild
  {
    TimeText.Parses120000();
    var clock := new DateTimeProvider(0);
    var r := Load(clock, Configuration("12:00:00", Some(ForceBuild), Some([Monday, Tuesday])));
    loaded := r.Some?;
    time, firstDay, secondDay, condition := "", Sunday, Sunday, NoBuild;
    if loaded {
      var trigger := r.value;
      time, firstDay, secondDay, condition := trigger.time, trigger.weekDays[0], trigger.weekDays[1], trigger.buildCondition;
    }
  }

  /** Only `time` given: seven week days and IfModificationExists by default. */
  method ShouldMinimallyPopulateFromReflector()
    returns (loaded: bool, time: string, dayCount: nat, condition: BuildCondition)
    ensures loaded
    ensures time == "10:00:00"
    ensures dayCount == 7
    ensures condition == IfModificationExists
  {
    TimeText.Parses100000();
    var clock := new DateTimeProvider(0);
    var r := Load(clock, Configuration("10:00:00", None, None));
    loaded := r.Some?;
    time, dayCount, condition := "", 0, NoBuild;
    if loaded {
      var trigger := r.value;
      time, dayCount, condition := trigger.time, |trigger.weekDays|, trigger.buildCondition;
    }
  }
}
