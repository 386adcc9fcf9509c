/**
 * The integration result record, the call log shared by the runner's
 * collaborators, and the values that pass between them.
 */
module Results {
  import opened Remote
  import opened Wrappers

  /** One change reported by source control. */
  datatype Modification = Modification(folderName: string, fileName: string, userName: string, modifiedTime: nat)

  /** What asked for the integration, and with which build condition. */
  datatype IntegrationRequest = IntegrationRequest(buildCondition: BuildCondition, source: string)

  /** The collaborator calls the runner makes; any of them may throw. */
  datatype Call =
    | StartNewIntegration
    | LastIntegrationResult
    | CreateDirectory(path: string)
    | GetModifications
    | Prebuild
    | GetSource
    | Run
    | LabelSourceControl
    | PublishResults
    | FinishIntegration

  /** An exception, identified by the call that threw it. */
  datatype Error = Error(thrownBy: Call)

  /** What a call gives back: its value, or the exception it threw. */
  datatype Attempt<+T> = Ok(value: T) | Threw(error: Error)

  /** The observable steps of an integration, in the order they happen. */
  datatype Event =
    | Called(call: Call)
    | ModificationsRequested(from: IntegrationResult?, to: IntegrationResult?)
    | ActivitySet(activity: ProjectActivity)
    | StartTimeMarked
    | EndTimeMarked

  /**
   * Whether a build runs for a result: ForceBuild always, IfModificationExists
   * only when there are modifications, NoBuild never.
   */
  predicate ShouldRunBuild(condition: BuildCondition, modifications: seq<Modification>)
  {
    condition == ForceBuild || (condition == IfModificationExists && |modifications| > 0)
  }

  /**
   * The record of the calls made to the collaborators, and the collaborators'
   * behaviour: which calls throw.
   */
  class CallLog {
    ghost var events: seq<Event>
    const faults: set<Call>

    constructor (faults: set<Call>)
      ensures events == [] && this.faults == faults
    {
      events := [];
      this.faults := faults;
    }
  }

  /** The mutable record of one integration attempt. */
  class IntegrationResult {
    const buildCondition: BuildCondition
    const workingDirectory: string
    const artifactDirectory: string
    const log: CallLog
    var modifications: seq<Modification>
    var status: IntegrationStatus
    var exceptionResult: Option<Error>

    /** A fresh, not yet built result, with no modifications and Unknown status. */
    constructor (request: IntegrationRequest, workingDirectory: string, artifactDirectory: string, log: CallLog)
      ensures buildCondition == request.buildCondition
      ensures this.workingDirectory == workingDirectory && this.artifactDirectory == artifactDirectory
      ensures this.log == log
      ensures modifications == [] && status == Unknown && exceptionResult == None
    {
      buildCondition := request.buildCondition;
      this.workingDirectory := workingDirectory;
      this.artifactDirectory := artifactDirectory;
      this.log := log;
      modifications := [];
      status := Unknown;
      exceptionResult := None;
    }

    /** Records the start time (the clock reading itself is not modelled). */
    method MarkStartTime()
      modifies log
      ensures log.events == old(log.events) + [StartTimeMarked]
    {
      log.events := log.events + [StartTimeMarked];
    }

    /** Records the end time (the clock reading itself is not modelled). */
    method MarkEndTime()
      modifies log
      ensures log.events == old(log.events) + [EndTimeMarked]
    {
      log.events := log.events + [EndTimeMarked];
    }

    /** Stores a caught exception, which makes the status Exception. */
    method SetExceptionResult(e: Error)
      modifies this`exceptionResult, this`status
      ensures exceptionResult == Some(e) && status == Exception
    {
      exceptionResult := Some(e);
      status := Exception;
    }
  }
}
