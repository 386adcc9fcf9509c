/**
 * The runner's collaborators, reduced to their interfaces: each call is
 * recorded in the shared call log and throws exactly when the log lists it
 * among the faults. What they do inside (polling source control, running the
 * build, publishing) is not modelled.
 */
module Collaborators {
  import opened Remote
  import opened Wrappers
  import opened Results

  /** Owns the current and the last finished integration result. */
  class ResultManager {
    const log: CallLog
    const workingDirectory: string
    const artifactDirectory: string
    var last: IntegrationResult
    var current: IntegrationResult?

    /** A manager whose last result is the initial one. */
    constructor (log: CallLog, workingDirectory: string, artifactDirectory: string)
      ensures this.log == log && this.workingDirectory == workingDirectory
      ensures this.artifactDirectory == artifactDirectory
      ensures current == null && fresh(last)
    {
      this.log := log;
      this.workingDirectory := workingDirectory;
      this.artifactDirectory := artifactDirectory;
      last := new IntegrationResult(IntegrationRequest(NoBuild, "initial"), workingDirectory, artifactDirectory, log);
      current := null;
    }

    /** Creates and registers a fresh result for the request. */
    method StartNewIntegration(request: IntegrationRequest) returns (a: Attempt<IntegrationResult>)
      modifies this`current, log
      ensures log.events == old(log.events) + [Called(Call.StartNewIntegration)]
      ensures a.Threw? <==> Call.StartNewIntegration in log.faults
      ensures a.Threw? ==> a.error == Error(Call.StartNewIntegration) && current == old(current)
      ensures a.Ok? ==> fresh(a.value) && current == a.value && a.value.log == log
      ensures a.Ok? ==> a.value.buildCondition == request.buildCondition
      ensures a.Ok? ==> a.value.workingDirectory == workingDirectory && a.value.artifactDirectory == artifactDirectory
      ensures a.Ok? ==> a.value.modifications == [] && a.value.status == Unknown && a.value.exceptionResult == None
    {
      log.events := log.events + [Called(Call.StartNewIntegration)];
      if Call.StartNewIntegration in log.faults {
        return Threw(Error(Call.StartNewIntegration));
      }
      var r := new IntegrationResult(request, workingDirectory, artifactDirectory, log);
      current := r;
      a := Ok(r);
    }

    /** The most recently finished result. */
    method LastIntegrationResult() returns (a: Attempt<IntegrationResult>)
      modifies log
      ensures log.events == old(log.events) + [Called(Call.LastIntegrationResult)]
      ensures a == if Call.LastIntegrationResult in log.faults then Threw(Error(Call.LastIntegrationResult)) else Ok(last)
    {
      log.events := log.events + [Called(Call.LastIntegrationResult)];
      if Call.LastIntegrationResult in log.faults {
        return Threw(Error(Call.LastIntegrationResult));
      }
      a := Ok(last);
    }

    /** Commits the current result as the last one. */
    method FinishIntegration() returns (err: Option<Error>)
      modifies this`last, log
      ensures log.events == old(log.events) + [Called(Call.FinishIntegration)]
      ensures err == if Call.FinishIntegration in log.faults then Some(Error(Call.FinishIntegration)) else None
      ensures last == if err.None? && current != null then current else old(last)
    {
      log.events := log.events + [Called(Call.FinishIntegration)];
      if Call.FinishIntegration in log.faults {
        return Some(Error(Call.FinishIntegration));
      }
      if current != null {
        last := current;
      }
      err := None;
    }
  }

  /** Source control: retrieves the source and labels it. */
  class SourceControl {
    const log: CallLog

    constructor (log: CallLog)
      ensures this.log == log
    {
      this.log := log;
    }

    method GetSource(result: IntegrationResult) returns (err: Option<Error>)
      modifies log
      ensures log.events == old(log.events) + [Called(Call.GetSource)]
      ensures err == if Call.GetSource in log.faults then Some(Error(Call.GetSource)) else None
    {
      log.events := log.events + [Called(Call.GetSource)];
      err := if Call.GetSource in log.faults then Some(Error(Call.GetSource)) else None;
    }

    method LabelSourceControl(result: IntegrationResult) returns (err: Option<Error>)
      modifies log
      ensures log.events == old(log.events) + [Called(Call.LabelSourceControl)]
      ensures err == if Call.LabelSourceControl in log.faults then Some(Error(Call.LabelSourceControl)) else None
    {
      log.events := log.events + [Called(Call.LabelSourceControl)];
      err := if Call.LabelSourceControl in log.faults then Some(Error(Call.LabelSourceControl)) else None;
    }
  }

  /** Waits for modifications to settle, then reports them (here: the ones it is given). */
  class QuietPeriod {
    const log: CallLog
    const observed: seq<Modification>

    constructor (log: CallLog, observed: seq<Modification>)
      ensures this.log == log && this.observed == observed
    {
      this.log := log;
      this.observed := observed;
    }

    /** The modifications made between the two results. */
    method GetModifications(sourceControl: SourceControl, from: IntegrationResult, to: IntegrationResult)
      returns (a: Attempt<seq<Modification>>)
      modifies log
      ensures log.events == old(log.events) + [ModificationsRequested(from, to)]
      ensures a == if Call.GetModifications in log.faults then Threw(Error(Call.GetModifications)) else Ok(observed)
    {
      log.events := log.events + [ModificationsRequested(from, to)];
      a := if Call.GetModifications in log.faults then Threw(Error(Call.GetModifications)) else Ok(observed);
    }
  }

  /** The project being integrated, as the runner sees it. */
  class Target {
    const log: CallLog
    const sourceControl: SourceControl
    const publishExceptions: bool
    /** The status a completed build leaves on the result. */
    const buildStatus: IntegrationStatus
    var activity: ProjectActivity

    constructor (log: CallLog, sourceControl: SourceControl, publishExceptions: bool, buildStatus: IntegrationStatus)
      ensures this.log == log && this.sourceControl == sourceControl
      ensures this.publishExceptions == publishExceptions && this.buildStatus == buildStatus
      ensures activity == Sleeping
    {
      this.log := log;
      this.sourceControl := sourceControl;
      this.publishExceptions := publishExceptions;
      this.buildStatus := buildStatus;
      activity := Sleeping;
    }

    /** Assigns the activity (a single assignment, as external monitors may read it). */
    method SetActivity(a: ProjectActivity)
      modifies this`activity, log
      ensures activity == a
      ensures log.events == old(log.events) + [ActivitySet(a)]
    {
      activity := a;
      log.events := log.events + [ActivitySet(a)];
    }

    method Prebuild(result: IntegrationResult) returns (err: Option<Error>)
      modifies log
      ensures log.events == old(log.events) + [Called(Call.Prebuild)]
      ensures err == if Call.Prebuild in log.faults then Some(Error(Call.Prebuild)) else None
    {
      log.events := log.events + [Called(Call.Prebuild)];
      err := if Call.Prebuild in log.faults then Some(Error(Call.Prebuild)) else None;
    }

    /** Runs the build; a build that completes sets the result's status. */
    method Run(result: IntegrationResult) returns (err: Option<Error>)
      modifies log, result`status
      ensures log.events == old(log.events) + [Called(Call.Run)]
      ensures err == if Call.Run in log.faults then Some(Error(Call.Run)) else None
      ensures result.status == if err.None? then buildStatus else old(result.status)
    {
      log.events := log.events + [Called(Call.Run)];
      if Call.Run in log.faults {
        return Some(Error(Call.Run));
      }
      result.status := buildStatus;
      err := None;
    }

    method PublishResults(result: IntegrationResult) returns (err: Option<Error>)
      modifies log
      ensures log.events == old(log.events) + [Called(Call.PublishResults)]
      ensures err == if Call.PublishResults in log.faults then Some(Error(Call.PublishResults)) else None
    {
      log.events := log.events + [Called(Call.PublishResults)];
      err := if Call.PublishResults in log.faults then Some(Error(Call.PublishResults)) else None;
    }
  }

  /** The directories the runner makes sure exist. */
  class FileSystem {
    const log: CallLog
    var directories: set<string>

    constructor (log: CallLog, directories: set<string>)
      ensures this.log == log && this.directories == directories
    {
      this.log := log;
      this.directories := directories;
    }

    predicate Exists(path: string)
      reads this
    {
      path in directories
    }

    method CreateDirectory(path: string) returns (err: Option<Error>)
      modifies this`directories, log
      ensures log.events == old(log.events) + [Called(Call.CreateDirectory(path))]
      ensures err == if Call.CreateDirectory(path) in log.faults then Some(Error(Call.CreateDirectory(path))) else None
      ensures directories == if err.None? then old(directories) + {path} else old(directories)
    {
      log.events := log.events + [Called(Call.CreateDirectory(path))];
      if Call.CreateDirectory(path) in log.faults {
        return Some(Error(Call.CreateDirectory(path)));
      }
      directories := directories + {path};
      err := None;
    }
  }
}
