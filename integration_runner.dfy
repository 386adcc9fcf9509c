/**
 * The integration runner: one call of Integrate starts a new result, makes
 * sure the working and artifact directories exist, checks for modifications
 * and builds if the result says so (catching whatever those steps throw),
 * then labels, publishes and commits the result when it is to be published,
 * and puts the target to sleep. Each method is proved against the pipeline
 * function that describes it.
 */
module Core {
  import opened Remote
  import opened Wrappers
  import opened Results
  import opened Collaborators
  import opened Pipeline
  import opened PipelineProperties

  lemma AppendAssoc(a: seq<Event>, b: seq<Event>, c: seq<Event>)
    ensures (a + b) + c == a + (b + c)
  {
  }

  /** The events of a successful setup followed by the rest, regrouped as an integration lists them. */
  lemma Regroup(start: seq<Event>, setup: seq<Event>, guard: seq<Event>, post: seq<Event>)
    ensures (start + setup) + (([StartTimeMarked] + guard) + ([EndTimeMarked] + post))
            == start + (((setup + [StartTimeMarked]) + guard) + ([EndTimeMarked] + post))
  {
    AppendAssoc(setup, [StartTimeMarked], guard);
    AppendAssoc(setup, [StartTimeMarked] + guard, [EndTimeMarked] + post);
    AppendAssoc(start, setup, ([StartTimeMarked] + guard) + ([EndTimeMarked] + post));
  }

  class IntegrationRunner {
    const target: Target
    const resultManager: ResultManager
    const quietPeriod: QuietPeriod
    const fileSystem: FileSystem
    /** The log every collaborator records its calls in. */
    const log: CallLog

    /** All collaborators record into the runner's log. */
    ghost predicate Valid()
    {
      target.log == log && target.sourceControl.log == log && resultManager.log == log
      && quietPeriod.log == log && fileSystem.log == log
    }

    constructor (resultManager: ResultManager, target: Target, quietPeriod: QuietPeriod, fileSystem: FileSystem,
                 log: CallLog)
      ensures this.resultManager == resultManager && this.target == target && this.quietPeriod == quietPeriod
      ensures this.fileSystem == fileSystem && this.log == log
    {
      this.target := target;
      this.quietPeriod := quietPeriod;
      this.resultManager := resultManager;
      this.fileSystem := fileSystem;
      this.log := log;
    }

    /** How the collaborators behave during one integration, given the directories that exist at its start. */
    ghost function PlanFor(existing: set<string>): Plan
    {
      Plan(log.faults, existing, resultManager.workingDirectory, resultManager.artifactDirectory,
           quietPeriod.observed, target.buildStatus, target.publishExceptions)
    }

    /** Creates the directory unless it exists; a failure to create it escapes. */
    method CreateDirectoryIfItDoesntExist(directory: string) returns (err: Option<Error>)
      requires Valid()
      modifies log, fileSystem`directories
      ensures var s := EnsureDirectory(log.faults, old(fileSystem.directories), directory);
        log.events == old(log.events) + s.events && err == s.error
      ensures fileSystem.directories == if err.None? then old(fileSystem.directories) + {directory}
                                        else old(fileSystem.directories)
    {
      err := None;
      if !fileSystem.Exists(directory) {
        err := fileSystem.CreateDirectory(directory);
      }
    }

    /** Sets the target to checking modifications and asks the quiet period for those between the results. */
    method GetModifications(from: IntegrationResult, to: IntegrationResult) returns (a: Attempt<seq<Modification>>)
      requires Valid()
      modifies log, target`activity
      ensures log.events == old(log.events) + [ActivitySet(CheckingModifications), ModificationsRequested(from, to)]
      ensures target.activity == CheckingModifications
      ensures a == if Call.GetModifications in log.faults then Threw(Error(Call.GetModifications)) else Ok(quietPeriod.observed)
    {
      target.SetActivity(CheckingModifications);
      a := quietPeriod.GetModifications(target.sourceControl, from, to);
    }

    /** Labels source control; a failure to label is swallowed. */
    method LabelSourceControl(result: IntegrationResult)
      requires Valid()
      modifies log
      ensures log.events == old(log.events) + [Called(Call.LabelSourceControl)]
    {
      var err := target.sourceControl.LabelSourceControl(result);
    }

    /**
     * Labels, publishes and commits the result when it is to be published
     * (a publishing or committing failure escapes), then puts the target to
     * sleep.
     */
    method PostBuild(result: IntegrationResult) returns (err: Option<Error>)
      requires Valid()
      modifies log, target`activity, resultManager`last
      ensures var s := Pipeline.PostBuild(log.faults, result.status, target.publishExceptions);
        log.events == old(log.events) + s.events && err == s.error
      ensures target.activity == if err.None? then Sleeping else old(target.activity)
      ensures resultManager.last ==
        if ShouldPublishResult(result.status, target.publishExceptions) && err.None? && resultManager.current != null
        then resultManager.current else old(resultManager.last)
    {
      err := None;
      if ShouldPublishResult(result.status, target.publishExceptions) {
        LabelSourceControl(result);
        err := target.PublishResults(result);
        if err.Some? {
          return;
        }
        err := resultManager.FinishIntegration();
        if err.Some? {
          return;
        }
      }
      target.SetActivity(Sleeping);
    }

    /**
     * The guarded part of an integration, on a fresh result: checks for
     * modifications and, if the result says a build should run, builds. The
     * first exception is caught and stored on the result.
     */
    method CheckAndBuild(lastResult: IntegrationResult, result: IntegrationResult) returns (caught: Option<Error>)
      requires Valid() && result.log == log
      requires result.modifications == [] && result.status == Unknown && result.exceptionResult == None
      modifies log, target`activity, result`modifications, result`status, result`exceptionResult
      ensures var g := GuardedRegion(log.faults, result.buildCondition, quietPeriod.observed, target.buildStatus,
                                     lastResult, result);
        log.events == old(log.events) + g.events && caught == g.caught
        && result.modifications == g.modifications && result.status == g.status && result.exceptionResult == g.caught
      ensures target.activity == if Call.GetModifications !in log.faults
                                     && ShouldRunBuild(result.buildCondition, quietPeriod.observed)
                                 then Building else CheckingModifications
    {
      caught := None;
      var modifications := GetModifications(lastResult, result);
      if modifications.Threw? {
        caught := Some(modifications.error);
      } else {
        result.modifications := modifications.value;
        if ShouldRunBuild(result.buildCondition, result.modifications) {
          target.SetActivity(Building);
          caught := target.Prebuild(result);
          if caught.None? {
            caught := target.sourceControl.GetSource(result);
          }
          if caught.None? {
            caught := target.Run(result);
          }
        }
      }
      if caught.Some? {
        result.SetExceptionResult(caught.value);
      }
    }

    /**
     * What an integration does once setup has succeeded: mark the start time,
     * run the guarded part, mark the end time, then label, publish, commit
     * and go to sleep as the result's status says.
     */
    method BuildAndPublish(lastResult: IntegrationResult, result: IntegrationResult) returns (err: Option<Error>)
      requires Valid() && result.log == log && resultManager.current == result
      requires result.modifications == [] && result.status == Unknown && result.exceptionResult == None
      modifies log, target`activity, resultManager`last, result`modifications, result`status, result`exceptionResult
      ensures var g := GuardedRegion(log.faults, result.buildCondition, quietPeriod.observed, target.buildStatus,
                                     lastResult, result);
        var post := Pipeline.PostBuild(log.faults, g.status, target.publishExceptions);
        log.events == old(log.events) + ([StartTimeMarked] + g.events + ([EndTimeMarked] + post.events))
        && err == post.error
        && result.modifications == g.modifications && result.status == g.status && result.exceptionResult == g.caught
        && resultManager.last == (if ShouldPublishResult(g.status, target.publishExceptions) && err.None?
                                  then result else old(resultManager.last))
      ensures target.activity == if err.None? then Sleeping
                                 else if Call.GetModifications !in log.faults
                                         && ShouldRunBuild(result.buildCondition, quietPeriod.observed)
                                 then Building else CheckingModifications
    {
      result.MarkStartTime();
      var caught := CheckAndBuild(lastResult, result);
      result.MarkEndTime();
      err := PostBuild(result);
    }

    /**
     * One integration for the request. Every event it causes is recorded in
     * the log; the new result's contents, the directories, the target's
     * activity and the committed result are as the pipeline prescribes, and
     * an exception escapes exactly when the pipeline says so.
     */
    method Integrate(request: IntegrationRequest) returns (c: Attempt<IntegrationResult>, ghost result: IntegrationResult?)
      requires Valid()
      modifies log, target`activity, resultManager`current, resultManager`last, fileSystem`directories
      ensures var o := Integration(PlanFor(old(fileSystem.directories)), request.buildCondition,
                                   old(resultManager.last), result);
        log.events == old(log.events) + o.events
        && (c.Threw? <==> o.error.Some?) && (c.Threw? ==> c.error == o.error.value)
        && fileSystem.directories == o.directories
        && target.activity == ActivityAfter(o.events, old(target.activity))
        && resultManager.last == (if o.committed then result else old(resultManager.last))
        && (result != null ==> result.modifications == o.modifications && result.status == o.status
                               && result.exceptionResult == o.caught)
      ensures c.Ok? ==> c.value == result
      ensures result == null <==> Call.StartNewIntegration in log.faults
      ensures result != null ==> fresh(result) && result.buildCondition == request.buildCondition
                                 && resultManager.current == result
      ensures result == null ==> resultManager.current == old(resultManager.current)
    {
      ghost var p := PlanFor(fileSystem.directories);
      ghost var initial := target.activity;
      ghost var start := log.events;
      result := null;
      var started := resultManager.StartNewIntegration(request);
      ghost var events := [Called(Call.StartNewIntegration)];
      if started.Threw? {
        IntegrationActivity(p, request.buildCondition, old(resultManager.last), result, initial);
        return Threw(started.error), result;
      }
      var r := started.value;
      result := r;
      var lastResult := resultManager.LastIntegrationResult();
      AppendAssoc(start, events, [Called(Call.LastIntegrationResult)]);
      events := events + [Called(Call.LastIntegrationResult)];
      if lastResult.Threw? {
        IntegrationActivity(p, request.buildCondition, old(resultManager.last), result, initial);
        return Threw(lastResult.error), r;
      }
      ghost var dirs := fileSystem.directories;
      var err := CreateDirectoryIfItDoesntExist(r.workingDirectory);
      ghost var wd := EnsureDirectory(p.faults, dirs, r.workingDirectory);
      AppendAssoc(start, events, wd.events);
      events := events + wd.events;
      if err.Some? {
        IntegrationActivity(p, request.buildCondition, old(resultManager.last), result, initial);
        return Threw(err.value), r;
      }
      dirs := fileSystem.directories;
      err := CreateDirectoryIfItDoesntExist(r.artifactDirectory);
      ghost var ad := EnsureDirectory(p.faults, dirs, r.artifactDirectory);
      AppendAssoc(start, events, ad.events);
      events := events + ad.events;
      if err.Some? {
        IntegrationActivity(p, request.buildCondition, old(resultManager.last), result, initial);
        return Threw(err.value), r;
      }
      assert events == Setup(p).events;
      err := BuildAndPublish(lastResult.value, r);
      ghost var g := GuardedRegion(p.faults, request.buildCondition, p.observed, p.buildStatus, lastResult.value, r);
      Regroup(start, events, g.events, Pipeline.PostBuild(p.faults, g.status, p.publishExceptions).events);
      c := if err.Some? then Threw(err.value) else Ok(r);
      IntegrationActivity(p, request.buildCondition, lastResult.value, result, initial);
    }
  }
}
