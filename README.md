# Schedule trigger and integration runner

This is a Dafny model of two parts of the CruiseControl.NET build server core. Both decide when a build runs and how it runs.

**The schedule trigger.** A schedule trigger holds a configured time of day (`Time`), a `BuildCondition` and the week days it may fire on. It also keeps the moment the next integration is due.
- `ShouldRunIntegration` answers `NoBuild` before that moment or on a day that is not allowed. Otherwise it answers the configured condition.
- `IntegrationCompleted` moves the due moment on by exactly one day.
- Setting `Time` anchors the due moment to the clock's date at that time of day.
- The trigger is a class (`Triggers.ScheduleTrigger`) with an injected clock (`Util.DateTimeProvider`).
- Time is a whole number of seconds since 0001-01-01, a Monday. The week day comes from the day count.
- The ScheduleTrigger class is not modelled from its code; its behaviour is reconstructed from the assertions of `ScheduleTriggerTest.cs`. Each of those tests is a method of `ScheduleTriggerTest` that drives the trigger through its own methods and proves the test's expected answers as postconditions.
- `TimeText` is a small parser for the `H:m` and `H:m:s` forms of `Time`, and a formatter it round-trips with.

**The integration runner.** `IntegrationRunner.Integrate` runs these steps in order:
1. It starts a new result, reads the last one, and makes sure the working and artifact directories exist.
2. It marks the start time.
3. In a guarded region, it checks for modifications (activity `CheckingModifications`). If the result should build, it sets activity `Building` and runs `Prebuild`, `GetSource` and `Run`. An exception there is caught and stored on the result, whose status becomes `Exception`.
4. It marks the end time.
5. If the result is to be published, it labels source control (a labelling failure is swallowed), publishes, and finishes the integration.
6. It sets activity `Sleeping`.

How the runner is modelled:
- The collaborators (`Collaborators`: result manager, quiet period, target, source control, file system) are classes reduced to their interfaces.
- Each call is recorded in a shared ghost log (`Results.CallLog`). A call throws exactly when the log's `faults` set names it, so every combination of failures is covered.
- `Pipeline` describes one integration as values: `Setup`, `GuardedRegion`, `PostBuild` and `Integration` give the events and the final state. The runner's methods (`Core.IntegrationRunner`) are proved to produce exactly those events and that state.
- `PipelineProperties` proves the runner's ordering and exception policy about those functions.
- `CheckAndBuild` (the `try` block) and `BuildAndPublish` (everything after the directories) are two parts of `Integrate`'s body, taken out as methods of their own.

Both directories are created before the `try` (`IntegrationRunner.cs:28-29`), so a failure to create one escapes `Integrate`; the model keeps that order.

## Model

| member | source | states |
|---|---|---|
| Triggers.ScheduleTrigger.constructor | project/UnitTests/Core/Triggers/ScheduleTriggerTest.cs:117-121 | defaults: build condition IfModificationExists, all seven week days, time "00:00:00", due at once |
| Triggers.ScheduleTrigger.SetTime | project/UnitTests/Core/Triggers/ScheduleTriggerTest.cs:33-34 | accepted text is kept as given and anchors the due time to today's date at that time of day; rejected text changes nothing; the other settings are untouched |
| Triggers.ScheduleTrigger.ShouldRunIntegration | project/UnitTests/Core/Triggers/ScheduleTriggerTest.cs:37-40 | NoBuild before the due time, NoBuild on a day not allowed, otherwise exactly the configured condition |
| Triggers.ScheduleTrigger.IntegrationCompleted | project/UnitTests/Core/Triggers/ScheduleTriggerTest.cs:63-67 | the due time moves on by exactly one day and stays at the configured time of day |
| Triggers.Load | project/UnitTests/Core/Triggers/ScheduleTriggerTest.cs:101-121 | loading fails exactly on malformed time text; the text is kept and its parsed time of day stored, the first due time is today at that time of day; given settings are kept as given, absent ones take their defaults |
| Util.NextDaySameTime | project/UnitTests/Core/Triggers/ScheduleTriggerTest.cs:63-67 | one day later is the same time of day on the next day number |
| Util.AtSplits | project/UnitTests/Core/Triggers/ScheduleTriggerTest.cs:33-39 | a date and time of day split back into day number, midnight, time of day and week day |
| TimeText.ParseTimeOfDay | project/UnitTests/Core/Triggers/ScheduleTriggerTest.cs:34 | a parsed time of day lies within one day |
| TimeText.ParseFormatted | project/UnitTests/Core/Triggers/ScheduleTriggerTest.cs:101-108 | the `HH:mm:ss` text of every time of day parses back to it |
| TimeText.ParseHoursMinutes | project/UnitTests/Core/Triggers/ScheduleTriggerTest.cs:34 | the `HH:mm` form is accepted, with zero seconds |
| TimeText.RejectsSingleField | project/UnitTests/Core/Triggers/ScheduleTriggerTest.cs:34 | text without a colon is rejected |
| TimeText.RejectsHourOutOfRange | project/UnitTests/Core/Triggers/ScheduleTriggerTest.cs:34 | an hour of 24 or more is rejected whatever follows |
| ScheduleTriggerTest.ShouldRunIntegrationIfCalendarTimeIsAfterIntegrationTime | project/UnitTests/Core/Triggers/ScheduleTriggerTest.cs:33-40 | configured for 23:30 at 23:25: NoBuild at 23:25, IfModificationExists at 23:31 |
| ScheduleTriggerTest.ShouldRunIntegrationOnTheNextDay | project/UnitTests/Core/Triggers/ScheduleTriggerTest.cs:46-51 | configured for 23:30 on Jan 1 at 23:25, still due at 01:01 on Jan 2 |
| ScheduleTriggerTest.ShouldIncrementTheIntegrationTimeToTheNextDayAfterIntegrationIsCompleted | project/UnitTests/Core/Triggers/ScheduleTriggerTest.cs:57-67 | due at 15:00, NoBuild after completion at 15:00, due again at 15:00 the next day |
| ScheduleTriggerTest.ConfigureAndAsk | project/UnitTests/Core/Triggers/ScheduleTriggerTest.cs:75-81 | one round: NoBuild at 23:25, the given condition at 23:31 |
| ScheduleTriggerTest.ShouldReturnSpecifiedBuildConditionWhenShouldRunIntegration | project/UnitTests/Core/Triggers/ScheduleTriggerTest.cs:73-82 | for every build condition, including NoBuild, the trigger answers NoBuild early and exactly that condition once due |
| ScheduleTriggerTest.ShouldOnlyRunOnSpecifiedDays | project/UnitTests/Core/Triggers/ScheduleTriggerTest.cs:88-95 | Monday and Wednesday allowed: ForceBuild on Wednesday 2004-12-01, NoBuild on Thursday 2004-12-02 |
| ScheduleTriggerTest.ShouldFullyPopulateFromReflector | project/UnitTests/Core/Triggers/ScheduleTriggerTest.cs:101-111 | time "12:00:00", week days Monday then Tuesday, ForceBuild, as configured |
| ScheduleTriggerTest.ShouldMinimallyPopulateFromReflector | project/UnitTests/Core/Triggers/ScheduleTriggerTest.cs:117-121 | time "10:00:00" as given, seven week days and IfModificationExists by default |
| Pipeline.ShouldPublishResult | project/core/IntegrationRunner.cs:92-103 | an Exception result is published exactly when the target publishes exceptions, any other exactly when its status is not Unknown |
| PipelineProperties.SetupFacts | project/core/IntegrationRunner.cs:25-29 | setup starts a new result first, makes only setup calls, reads the last result second when it returns, and throws only what a setup call threw |
| PipelineProperties.FailedSetup | project/core/IntegrationRunner.cs:25-29 | when setup throws, every event is a setup call, the exception that escapes is a setup call's own fault, and nothing is caught, built or committed |
| PipelineProperties.GuardStart | project/core/IntegrationRunner.cs:55-58 | the guarded region first sets CheckingModifications, then asks for modifications over the window (last result, new result) |
| PipelineProperties.GuardBuild | project/core/IntegrationRunner.cs:34-40 | the build stages are reached iff the modification check returned and ShouldRunBuild holds; each stage is reached iff the previous ones returned |
| PipelineProperties.GuardCatch | project/core/IntegrationRunner.cs:44-48 | the guarded region catches exactly a guarded call that was attempted and threw, and that makes the status Exception |
| PipelineProperties.PostFacts | project/core/IntegrationRunner.cs:67-78 | post-build labels and publishes iff the result is to be published, finishes only after publishing returns, escapes only with a publish or finish failure, and otherwise ends asleep |
| PipelineProperties.ExceptionsContained | project/core/IntegrationRunner.cs:25-50 | an exception escapes only from a call outside the guarded region, never from a guarded call or from labelling; with no such fault nothing escapes |
| PipelineProperties.GuardedExceptionCaptured | project/core/IntegrationRunner.cs:31-49 | a caught exception came from an attempted guarded call, sets status Exception and is followed by the end mark; any guarded call that throws is caught |
| PipelineProperties.BuildOnlyWhenShouldRunBuild | project/core/IntegrationRunner.cs:34-40 | Building, Prebuild, GetSource or Run happen iff setup and the modification check succeeded and ShouldRunBuild holds |
| PipelineProperties.BuildStageOrder | project/core/IntegrationRunner.cs:37-40 | Building precedes Prebuild, which precedes GetSource, which precedes Run; each runs only if the previous one returned |
| PipelineProperties.TimesMarkedAroundGuard | project/core/IntegrationRunner.cs:30-49 | the start and end marks happen iff setup succeeded, and every guarded event lies between them, whatever was caught |
| PipelineProperties.PublishedExactlyWhenShouldPublish | project/core/IntegrationRunner.cs:69-74 | labelling and publishing happen iff the result is to be published; finishing also needs publishing to return; the result is committed iff finishing returned |
| PipelineProperties.PublishOrder | project/core/IntegrationRunner.cs:71-73 | labelling precedes publishing, which precedes finishing |
| PipelineProperties.UnknownNeverPublished | project/core/IntegrationRunner.cs:94-101 | a published result is never Unknown, and is an Exception only if the target publishes exceptions |
| PipelineProperties.LabellingFailureSwallowed | project/core/IntegrationRunner.cs:80-90 | an integration whose labelling throws is identical to one whose labelling succeeds |
| PipelineProperties.SleepingAfterNormalReturn | project/core/IntegrationRunner.cs:77 | when Integrate returns, its last step set the activity to Sleeping; when it throws, Sleeping was never set |
| PipelineProperties.CallsBegin | project/core/IntegrationRunner.cs:25-26 | the first call is StartNewIntegration, the second reading the last result |
| PipelineProperties.ModificationWindow | project/core/IntegrationRunner.cs:55-58 | modifications are asked for iff setup succeeded, only over (last result, new result), after CheckingModifications is set and after the last result was read |
| PipelineProperties.GuardActivity | project/core/IntegrationRunner.cs:37 | the guarded region leaves Building if it built, otherwise CheckingModifications |
| PipelineProperties.PostActivity | project/core/IntegrationRunner.cs:77 | post-build leaves Sleeping when it returns and the activity unchanged when it throws |
| PipelineProperties.IntegrationActivity | project/core/IntegrationRunner.cs:23-53 | the activity after an integration: unchanged if setup threw, Sleeping if it returned, otherwise what the guarded region left |
| PipelineProperties.ExceptionWithoutFlagNotPublished | project/core/IntegrationRunner.cs:95-98 | any caught exception (from the modification check, Prebuild, GetSource or Run) on a target that does not publish exceptions: status Exception, nothing labelled, published or committed, nothing escapes, Sleeping |
| Core.IntegrationRunner.CreateDirectoryIfItDoesntExist | project/core/IntegrationRunner.cs:61-65 | creates the directory only when it is missing; a creation failure escapes |
| Core.IntegrationRunner.GetModifications | project/core/IntegrationRunner.cs:55-59 | sets CheckingModifications, then asks the quiet period over the window (from, to) and returns its answer or its exception |
| Core.IntegrationRunner.LabelSourceControl | project/core/IntegrationRunner.cs:80-90 | calls source control's labelling and swallows its failure |
| Core.IntegrationRunner.PostBuild | project/core/IntegrationRunner.cs:67-78 | produces exactly post-build's events and escaping exception; Sleeping when it returns; commits the current result when published and finished |
| Core.IntegrationRunner.CheckAndBuild | project/core/IntegrationRunner.cs:31-48 | produces exactly the guarded region's events, caught exception, modifications and status, and the activity it leaves |
| Core.IntegrationRunner.BuildAndPublish | project/core/IntegrationRunner.cs:30-50 | start mark, guarded region, end mark and post-build, with their events, exception, result state, activity and commit |
| Core.IntegrationRunner.Integrate | project/core/IntegrationRunner.cs:23-53 | logs exactly the events of `Integration` and leaves its state: escaping exception, result contents, directories, activity and committed result |

## Left out

- The ScheduleTrigger class is not modelled from its code; its behaviour is reconstructed from ScheduleTriggerTest.cs. Its internals (the name of the due-time field, the parse routine, what happens on malformed text) are reconstructed from the tests. Triggers.ScheduleTrigger.SetTime reports malformed text as a failure instead of throwing.
- Triggers.ScheduleTrigger.ShouldRunIntegration: the trigger is taken as due when the clock reads exactly the due time. The tests do not reach that boundary.
- Triggers.ScheduleTrigger.constructor: the default time string is "00:00:00", a due time at the minimum date. The tests only show that a trigger whose time was never set fires, and they never read the default string.
- The calendar is not modelled. The tests' dates are written as day numbers counted from 0001-01-01, whose week days follow from the count.
- XML loading through NetReflector: `Triggers.Load` takes the already-read settings. Element and attribute parsing is not modelled.
- Mocking of the clock: the clock is a class whose `now` the scenarios set by hand.
- Clock readings for the start and end times: only the fact that each mark happened, and where, is recorded.
- Logging (`Log.Info`, `Log.Error`) has no behavioural effect and is omitted.
- Exceptions are identified only by the call that threw them. Their types, messages and the wrapping of a labelling failure in a `CruiseControlException` are not modelled.
- Directory I/O: the file system is a set of existing paths. A failure to create a directory is chosen by the fault set. The path strings are the result manager's.
- The inner workings of the quiet period, source control, the target's `Prebuild`, `Run` and `PublishResults`, and the result manager are not modelled. The quiet period reports a fixed list of modifications. `Run` sets a fixed status.
- `ShouldRunBuild` of the result: its code is not modelled. It is modelled by the documented rule: ForceBuild always, IfModificationExists when there are modifications, NoBuild never.
- Storing an exception on the result is assumed to set its status to `Exception`. The setter's code is not modelled.
- Concurrent readers of `target.Activity`, such as external monitors, are not modelled. The activity is a field assigned once at each step.
