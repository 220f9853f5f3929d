/** The vocabulary shared by both CMDB writers and the run that drives them. */
module Writers {
  import opened Wrappers

  /** What happened to one device, as the run report counts it. */
  datatype Action = Inserted | Updated | Unchanged | Skipped | Error | Pending

  /** What a writer says about one item: a real write, or a dry-run prediction. */
  datatype WriteAction = Wrote(action: Action) | DryRun(simulated: Action)

  /** One device, mapped to CMDB shape. Text fields use "" where Python has None. */
  datatype CiPayload = CiPayload(intuneId: string, className: string, values: map<string, string>,
                                 deviceName: string, serialNumber: string)

  /** A missing sys_id is ""; a message is kept only as the fact that there is one. */
  datatype WriteResult = WriteResult(intuneId: string, action: WriteAction, sysId: string, message: bool)

  /** What a writer may say: every real outcome, and in a dry run also that it cannot tell. */
  predicate InVocabulary(a: WriteAction) {
    match a
    case Wrote(x) => x.Inserted? || x.Updated? || x.Unchanged? || x.Error?
    case DryRun(x) => x.Inserted? || x.Updated? || x.Unchanged? || x.Pending?
  }

  /** What every writer owes the run for a batch: one result per item, in its place, under its id. */
  predicate Answers(batch: seq<CiPayload>, results: seq<WriteResult>) {
    |results| == |batch|
    && forall i | 0 <= i < |batch| :: results[i].intuneId == batch[i].intuneId && InVocabulary(results[i].action)
  }

  /** How the report counts what a writer says; a prediction the writer could not make is a skip. */
  function Reported(a: WriteAction): Action {
    match a
    case Wrote(x) => x
    case DryRun(x) => if x.Pending? then Skipped else x
  }

  /** A result that is not an error, and puts id in the CMDB under sysId. */
  predicate Tells(w: WriteResult, id: string, sysId: string) {
    w.intuneId == id && w.sysId == sysId != "" && !Reported(w.action).Error?
  }

  /** What a call of a writer comes to. Failed: ServiceNowError. Ended: any other exception, which ends the run. */
  datatype Reply = Answered(results: seq<WriteResult>) | Failed | Ended

  /** The result of an item that was not written. */
  function Failure(item: CiPayload): WriteResult {
    WriteResult(item.intuneId, Wrote(Error), "", true)
  }
}
