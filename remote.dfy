/** Enumerations shared by the trigger and the integration runner. */
module Remote {

  /** Why an integration runs: not at all, only if something changed, or unconditionally. */
  datatype BuildCondition = NoBuild | IfModificationExists | ForceBuild

  /** Outcome of an integration; the runner tells Exception and Unknown apart from the rest. */
  datatype IntegrationStatus = Success | Failure | Exception | Unknown | Cancelled

  /** Coarse liveness state of a project, set by the runner as it enters each stage. */
  datatype ProjectActivity = Sleeping | CheckingModifications | Building

  /** The week days, in the order (and with the numbering, Sunday = 0) of the platform's enumeration. */
  datatype DayOfWeek = Sunday | Monday | Tuesday | Wednesday | Thursday | Friday | Saturday

  /** The seven days in enumeration order: what enumerating all values of DayOfWeek yields. */
  const AllWeekDays: seq<DayOfWeek> := [Sunday, Monday, Tuesday, Wednesday, Thursday, Friday, Saturday]

  /** A day from its enumeration number. */
  function DayFromIndex(i: nat): (d: DayOfWeek)
    requires i < 7
    ensures AllWeekDays[i] == d
  {
    match i
    case 0 => Sunday
    case 1 => Monday
    case 2 => Tuesday
    case 3 => Wednesday
    case 4 => Thursday
    case 5 => Friday
    case _ => Saturday
  }
}
