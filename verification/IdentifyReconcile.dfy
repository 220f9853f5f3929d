/** The bulk writer: one request for a batch, one result per submitted item, correlated by position. */
module IdentifyReconcile {
  import opened ItemErrors
  import opened Json
  import Retry
  import opened Wrappers
  import opened Writers

  /** The operations IRE reports, in the connector's vocabulary. */
  const OPERATION_TO_ACTION: map<string, Action> := map[
    "INSERT" := Inserted, "UPDATE" := Updated, "UPDATE_WITH_UPGRADE" := Updated, "UPDATE_WITH_DOWNGRADE" := Updated,
    "UPDATE_WITH_SWITCH" := Updated, "NO_CHANGE" := Unchanged, "DELETE" := Updated]

  /** A result is an error, or one of the three writes IRE can perform, real or simulated. */
  predicate IsOutcome(dryRun: bool, a: WriteAction) {
    a == Wrote(Error) || (if dryRun then a.DryRun? && a.simulated in {Inserted, Updated, Unchanged}
                          else a.Wrote? && a.action in {Inserted, Updated, Unchanged})
  }

  /** What one reply item says: reading it raises, it is an error, or it is a write. */
  datatype Verdict = Raises | Erroneous | Written(action: Action, sysId: string)

  function VerdictOf(upper: string -> string, item: Json): Verdict {
    match FieldsOf(item)
    case None => Raises
    case Some(fields) =>
      match HasErrors(fields)
      case None => Raises
      case Some(true) => Erroneous
      case Some(false) =>
        var operation := upper(TextOrEmpty(Get(fields, "operation")));
        if operation in OPERATION_TO_ACTION then Written(OPERATION_TO_ACTION[operation], TextOrEmpty(Get(fields, "sysId")))
        else Erroneous
  }

  /** The reply items of a 2xx body; None where it holds none that can be gone through. */
  function ItemsOf(body: Body): Option<seq<Json>> {
    if body.None? || FieldsOf(body.value).None? then None
    else
      var result := FieldsOf(Get(FieldsOf(body.value).value, "result"));
      if result.None? then None
      else
        var items := Get(result.value, "items");
        if !Truthy(items) then Some([]) else if items.List? then Some(items.items) else None
  }

  function ResultFor(payload: CiPayload, v: Verdict, dryRun: bool): WriteResult {
    if v.Written? then WriteResult(payload.intuneId, if dryRun then DryRun(v.action) else Wrote(v.action), v.sysId, false)
    else Failure(payload)
  }

  /** Reading the reply raises on one of the items that are matched with the batch. */
  predicate SomeRaises(upper: string -> string, batch: seq<CiPayload>, items: seq<Json>) {
    exists i | 0 <= i < |batch| && i < |items| :: VerdictOf(upper, items[i]).Raises?
  }

  /**
    Unless reading raises, every item gets exactly one result, its own. An item counts as
    written only if the reply has an item at its position, without errors, whose operation is
    known; so a short reply, an unknown operation and an error fail that device alone.
   */
  method ParseResults(upper: string -> string, batch: seq<CiPayload>, items: seq<Json>, dryRun: bool)
    returns (results: Option<seq<WriteResult>>)
    ensures results.None? <==> SomeRaises(upper, batch, items)
    ensures results.Some? ==> Answers(batch, results.value)
    ensures results.Some? ==> forall i | 0 <= i < |batch| ::
              && IsOutcome(dryRun, results.value[i].action)
              && (results.value[i].action != Wrote(Error) <==> i < |items| && VerdictOf(upper, items[i]).Written?)
              && results.value[i] == if i < |items| then ResultFor(batch[i], VerdictOf(upper, items[i]), dryRun) else Failure(batch[i])
  {
    var parsed: seq<WriteResult> := [];
    for index := 0 to |batch|
      invariant |parsed| == index && forall i | 0 <= i < index && i < |items| :: !VerdictOf(upper, items[i]).Raises?
      invariant forall i | 0 <= i < index ::
                  parsed[i] == if i < |items| then ResultFor(batch[i], VerdictOf(upper, items[i]), dryRun) else Failure(batch[i])
    {
      if index >= |items| {
        parsed := parsed + [Failure(batch[index])];
      } else {
        match VerdictOf(upper, items[index])
        case Raises =>
          return None;
        case Erroneous =>
          parsed := parsed + [Failure(batch[index])];
        case Written(action, sysId) =>
          parsed := parsed + [WriteResult(batch[index].intuneId, if dryRun then DryRun(action) else Wrote(action), sysId, false)];
      }
    }
    results := Some(parsed);
  }

  /**
    What an item says, in its own fields: it is written when no entry of its errors has a
    message and its operation is, upper-cased, one of the seven IRE knows.
   */
  lemma ItemIsRead(upper: string -> string, item: Json, payload: CiPayload, dryRun: bool)
    requires !VerdictOf(upper, item).Raises?
    ensures var r := ResultFor(payload, VerdictOf(upper, item), dryRun);
            var fields := if item.Object? then item.fields else map[];
            var operation := upper(if Truthy(Get(fields, "operation")) then ToText(Get(fields, "operation")) else "");
            var action := if operation == "INSERT" then Inserted else if operation == "NO_CHANGE" then Unchanged else Updated;
            && r.intuneId == payload.intuneId
            && (r.action != Wrote(Error) <==>
                  && NoMessages(Get(fields, "errors"))
                  && operation in {"INSERT", "UPDATE", "UPDATE_WITH_UPGRADE", "UPDATE_WITH_DOWNGRADE", "UPDATE_WITH_SWITCH", "NO_CHANGE", "DELETE"})
            && (r.action != Wrote(Error) ==>
                  && r.action == (if dryRun then DryRun(action) else Wrote(action))
                  && r.sysId == if Truthy(Get(fields, "sysId")) then ToText(Get(fields, "sysId")) else "")
  {
    ErrorsAreRead(if item.Object? then item.fields else map[]);
  }

  /** The items of a reply are those of `result.items`; nothing there is no items, and anything else cannot be read. */
  lemma ItemsAreRead(body: Body)
    ensures ItemsOf(body).Some? && ItemsOf(body).value != [] <==>
              && body.Some? && body.value.Object? && Get(body.value.fields, "result").Object?
              && var items := Get(Get(body.value.fields, "result").fields, "items"); items.List? && items.items != []
    ensures ItemsOf(body).Some? && ItemsOf(body).value != [] ==>
              ItemsOf(body).value == Get(Get(body.value.fields, "result").fields, "items").items
    ensures ItemsOf(body).None? <==>
              || body.None? || (Truthy(body.value) && !body.value.Object?)
              || (body.value.Object?
                  && var result := Get(body.value.fields, "result");
                     || (Truthy(result) && !result.Object?)
                     || (result.Object? && Truthy(Get(result.fields, "items")) && !Get(result.fields, "items").List?))
  {}

  /** The end of the run, for a batch that was sent: a request that failed, or a reply on which reading raises. */
  predicate EndsRun(upper: string -> string, batch: seq<CiPayload>, outcome: Retry.Outcome<Body>) {
    outcome.Raised? || outcome.response.TransportError?
    || (if !Retry.Success(outcome.response.status) then RefusalRaises(outcome.response.body)
        else ItemsOf(outcome.response.body).None? || SomeRaises(upper, batch, ItemsOf(outcome.response.body).value))
  }

  /**
    One batch. A refusal fails it as a whole; only what raises ends the run, and then nothing
    of the batch is known.
   */
  method Write(upper: string -> string, batch: seq<CiPayload>, outcome: Retry.Outcome<Body>, dryRun: bool) returns (reply: Reply)
    ensures batch == [] ==> reply == Answered([])
    ensures batch != [] ==> (reply.Ended? <==> EndsRun(upper, batch, outcome))
    ensures batch != [] && !reply.Ended? ==> (reply.Failed? <==> !Retry.Success(outcome.response.status))
    ensures reply.Answered? ==> Answers(batch, reply.results)
    ensures batch != [] && reply.Answered? ==>
              forall i | 0 <= i < |batch| ::
                var items := ItemsOf(outcome.response.body).value;
                && IsOutcome(dryRun, reply.results[i].action)
                && reply.results[i] == if i < |items| then ResultFor(batch[i], VerdictOf(upper, items[i]), dryRun) else Failure(batch[i])
  {
    if batch == [] {
      return Answered([]);
    }
    if outcome.Raised? || outcome.response.TransportError? {
      return Ended;
    }
    var body := outcome.response.body;
    if !Retry.Success(outcome.response.status) {
      return if RefusalRaises(body) then Ended else Failed;
    }
    var items := ItemsOf(body);
    if items.None? {
      return Ended;
    }
    var results := ParseResults(upper, batch, items.value, dryRun);
    reply := if results.Some? then Answered(results.value) else Ended;
  }
}
