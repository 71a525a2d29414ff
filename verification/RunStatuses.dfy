/** The statuses of a run. */
module RunStatuses {
  datatype RunStatus = Pending | Running | Suspended | Blocked | Completed | Failed | Cancelled | Dead

  /** Those retention may delete. */
  const TERMINAL := {Completed, Failed, Cancelled, Dead}
}
