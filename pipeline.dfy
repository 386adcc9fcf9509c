/**
 * What one call of the integration runner does, as values: the events it
 * causes, in order, and the state it leaves, given how the collaborators
 * behave. The runner's methods are proved against these functions; the
 * lemmas state the runner's ordering and exception policy in terms of them.
 */
module Pipeline {
  import opened Remote
  import opened Wrappers
  import opened Results

  /**
   * The publish gate: an Exception result is published only when the target
   * publishes exceptions; any other result unless its status is Unknown.
   */
  function ShouldPublishResult(status: IntegrationStatus, publishExceptions: bool): (publish: bool)
    ensures status == Exception ==> (publish <==> publishExceptions)
    ensures status != Exception ==> (publish <==> status != Unknown)
    ensures status == Unknown ==> !publish
  {
    if status == Exception then publishExceptions else status != Unknown
  }

  /** Events of a stage and the exception it lets escape, if any. */
  datatype Step = Step(events: seq<Event>, error: Option<Error>)

  /** Making sure a directory exists: nothing if it does, otherwise one creation attempt. */
  function EnsureDirectory(faults: set<Call>, existing: set<string>, path: string): Step
  {
    if path in existing then Step([], None)
    else Step([Called(CreateDirectory(path))], if CreateDirectory(path) in faults then Some(Error(CreateDirectory(path))) else None)
  }

  /** The calls made inside the guarded region. */
  predicate IsGuarded(c: Call)
  {
    c == GetModifications || c == Prebuild || c == GetSource || c == Run
  }

  /** Events of the guarded region, the result's modifications and status after it, and what it caught. */
  datatype Guarded = Guarded(events: seq<Event>, modifications: seq<Modification>, status: IntegrationStatus, caught: Option<Error>)

  /**
   * The guarded region, on a fresh result (no modifications, status Unknown):
   * check for modifications, then build if the result says so. The first call
   * that throws ends the region; its exception is caught and makes the status
   * Exception.
   */
  function GuardedRegion(faults: set<Call>, condition: BuildCondition, observed: seq<Modification>,
                         buildStatus: IntegrationStatus, last: IntegrationResult?, current: IntegrationResult?): Guarded
  {
    var asked := [ActivitySet(CheckingModifications), ModificationsRequested(last, current)];
    if GetModifications in faults then Guarded(asked, [], Exception, Some(Error(GetModifications)))
    else if !ShouldRunBuild(condition, observed) then Guarded(asked, observed, Unknown, None)
    else
      var prebuilt := asked + [ActivitySet(Building), Called(Prebuild)];
      if Prebuild in faults then Guarded(prebuilt, observed, Exception, Some(Error(Prebuild)))
      else if GetSource in faults then Guarded(prebuilt + [Called(GetSource)], observed, Exception, Some(Error(GetSource)))
      else
        var built := prebuilt + [Called(GetSource), Called(Run)];
        if Run in faults then Guarded(built, observed, Exception, Some(Error(Run)))
        else Guarded(built, observed, buildStatus, None)
  }

  /**
   * After the build: label, publish and finish when the result is to be
   * published (a labelling failure is swallowed, a publishing or finishing
   * failure escapes), then go to sleep.
   */
  function PostBuild(faults: set<Call>, status: IntegrationStatus, publishExceptions: bool): Step
  {
    if !ShouldPublishResult(status, publishExceptions) then Step([ActivitySet(Sleeping)], None)
    else
      var published := [Called(LabelSourceControl), Called(PublishResults)];
      if PublishResults in faults then Step(published, Some(Error(PublishResults)))
      else if FinishIntegration in faults then Step(published + [Called(FinishIntegration)], Some(Error(FinishIntegration)))
      else Step(published + [Called(FinishIntegration), ActivitySet(Sleeping)], None)
  }

  /** How the collaborators behave during one integration. */
  datatype Plan = Plan(
    faults: set<Call>,
    existing: set<string>,
    workingDirectory: string,
    artifactDirectory: string,
    observed: seq<Modification>,
    buildStatus: IntegrationStatus,
    publishExceptions: bool)

  /**
   * Everything one integration does: its events, the exception that escapes
   * it (if any), the new result's modifications, status and caught exception,
   * the directories that exist afterwards, and whether the result was committed
   * as the last one.
   */
  datatype Outcome = Outcome(
    events: seq<Event>,
    error: Option<Error>,
    modifications: seq<Modification>,
    status: IntegrationStatus,
    caught: Option<Error>,
    directories: set<string>,
    committed: bool)

  /**
   * The steps before the guarded region, outside it: start a new result, read
   * the last one, make sure the working and artifact directories exist. The
   * first that throws ends the integration.
   */
  function Setup(p: Plan): Step
  {
    var started := [Called(StartNewIntegration)];
    if StartNewIntegration in p.faults then Step(started, Some(Error(StartNewIntegration)))
    else
      var read := started + [Called(LastIntegrationResult)];
      if LastIntegrationResult in p.faults then Step(read, Some(Error(LastIntegrationResult)))
      else
        var wd := EnsureDirectory(p.faults, p.existing, p.workingDirectory);
        if wd.error.Some? then Step(read + wd.events, wd.error)
        else
          var ad := EnsureDirectory(p.faults, p.existing + {p.workingDirectory}, p.artifactDirectory);
          Step(read + wd.events + ad.events, ad.error)
  }

  /** The directories that exist once setup has ended, however it ended. */
  function SetupDirectories(p: Plan): set<string>
  {
    if StartNewIntegration in p.faults || LastIntegrationResult in p.faults
       || EnsureDirectory(p.faults, p.existing, p.workingDirectory).error.Some? then p.existing
    else if EnsureDirectory(p.faults, p.existing + {p.workingDirectory}, p.artifactDirectory).error.Some? then
      p.existing + {p.workingDirectory}
    else p.existing + {p.workingDirectory, p.artifactDirectory}
  }

  /** All steps before the guarded region succeed. */
  predicate SetupSucceeds(p: Plan)
  {
    Setup(p).error.None?
  }

  /** One integration for a request with `condition`, starting from the last result `last`. */
  function Integration(p: Plan, condition: BuildCondition, last: IntegrationResult?, current: IntegrationResult?): Outcome
  {
    var setup := Setup(p);
    if setup.error.Some? then
      Outcome(setup.events, setup.error, [], Unknown, None, SetupDirectories(p), false)
    else
      var g := GuardedRegion(p.faults, condition, p.observed, p.buildStatus, last, current);
      var post := PostBuild(p.faults, g.status, p.publishExceptions);
      Outcome((setup.events + [StartTimeMarked]) + g.events + ([EndTimeMarked] + post.events),
              post.error, g.modifications, g.status, g.caught, SetupDirectories(p),
              ShouldPublishResult(g.status, p.publishExceptions) && PublishResults !in p.faults
              && FinishIntegration !in p.faults)
  }

  /** The activity after `events`, starting from `initial`: the last one set. */
  function ActivityAfter(events: seq<Event>, initial: ProjectActivity): ProjectActivity
  {
    if events == [] then initial
    else if events[|events| - 1].ActivitySet? then events[|events| - 1].activity
    else ActivityAfter(events[..|events| - 1], initial)
  }

  /** `a` happens at some point before `b`. */
  predicate Before(events: seq<Event>, a: Event, b: Event)
  {
    exists i, j :: 0 <= i < j < |events| && events[i] == a && events[j] == b
  }

  /** Call `c` was made (the quiet period's call is logged with its window). */
  predicate Attempted(events: seq<Event>, c: Call)
  {
    if c == GetModifications then exists e :: e in events && e.ModificationsRequested? else Called(c) in events
  }

  /** The events of the guarded region. */
  predicate InGuard(e: Event)
  {
    e.ModificationsRequested? || (e.Called? && IsGuarded(e.call))
    || e == ActivitySet(CheckingModifications) || e == ActivitySet(Building)
  }
}
