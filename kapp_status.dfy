/**
  The persisted status of an App (kappctrl v1alpha1 AppStatus) as the watcher and the
  PackageRepository adapter read it. Fields the Go structs may leave nil (Fetch, Template,
  Deploy) are Options. Timestamps are whole seconds.
*/
module KappStatus {
  import opened Wrappers

  /** A metav1.Time, taken at one-second granularity. */
  type Time = int

  /** Condition types. In Go the type is one string; here the five known strings are the
      five named constructors, and OtherCondition holds only strings other than those five
      ("Reconciling", "ReconcileSucceeded", "ReconcileFailed", "Deleting", "DeleteFailed"). */
  datatype ConditionType =
    | Reconciling
    | ReconcileSucceeded
    | ReconcileFailed
    | Deleting
    | DeleteFailed
    | OtherCondition(name: string)

  datatype ConditionStatus = ConditionTrue | ConditionFalse | ConditionUnknown

  datatype Condition = Condition(condType: ConditionType, status: ConditionStatus, reason: string, message: string)

  datatype GenericStatus = GenericStatus(
    observedGeneration: int,
    conditions: seq<Condition>,
    friendlyDescription: string,
    usefulErrorMessage: string)

  /** Status of the Fetch or the Template stage. */
  datatype StageStatus = StageStatus(
    exitCode: int,
    startedAt: Time,
    updatedAt: Time,
    stdout: string,
    stderr: string)

  /** Status of the Deploy stage, which also records whether it finished and its error text. */
  datatype DeployStatus = DeployStatus(
    exitCode: int,
    startedAt: Time,
    updatedAt: Time,
    stdout: string,
    stderr: string,
    finished: bool,
    error: string)

  datatype AppStatus = AppStatus(
    fetch: Option<StageStatus>,
    template: Option<StageStatus>,
    deploy: Option<DeployStatus>,
    genericStatus: GenericStatus,
    consecutiveReconcileSuccesses: int,
    consecutiveReconcileFailures: int)
}
