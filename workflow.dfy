/**
 * The per-record update workflow (`processUpdate`): fetch the subscription,
 * remember its old delivery price, optionally ask the operator, call the
 * update, and classify the result. Every path appends one audit row and
 * returns one outcome; no collaborator failure escapes.
 *
 * The clock, the billing service and the operator are not called: what
 * they answer for one record is an input (`Replies`), and the session
 * records which of them the workflow actually consulted.
 */
module Workflow {
  import opened Audit
  import opened Confirmation

  datatype Option<T> = None | Some(value: T)

  /** One row of work: which subscription, and the price to set (kept as text). */
  datatype Request = Request(subId: string, newPrice: string)

  /** What fetching the subscription yields: its current delivery price, or a failure message. */
  datatype FetchReply = Fetched(deliveryPrice: string) | FetchFailed(message: string)

  /** What the update call yields: done, or a failure message. */
  datatype UpdateReply = Updated | UpdateFailed(message: string)

  /** Everything the outside world answers while one record is processed. */
  datatype Replies = Replies(timestamp: string, fetch: FetchReply, answer: string, update: UpdateReply)

  /** What the workflow returns to its caller; `error` is present only on the error path. */
  datatype Outcome = Outcome(subId: string, status: Status, error: Option<string>)

  /** A call made to the update collaborator. */
  datatype UpdateCall = UpdateCall(subId: string, deliveryPrice: string)

  /**
   * The observable result of processing one record: the audit row, the
   * outcome, whether the operator was prompted, and whether the update was called.
   */
  datatype Step = Step(entry: AuditEntry, outcome: Outcome, prompted: bool, updateCalled: bool)

  /** The outcome that goes with an audit row. */
  function OutcomeOf(e: AuditEntry): (o: Outcome)
    ensures o.subId == e.subscriptionId && o.status == e.status
    ensures o.error.Some? <==> e.status == Error
    ensures o.error.Some? ==> o.error.value == e.error
  {
    Outcome(e.subscriptionId, e.status, if e.status == Error then Some(e.error) else None)
  }

  /** What `processUpdate` does with one request, given what the world answers. */
  function Decide(req: Request, skipConfirm: bool, r: Replies): (s: Step)
    // every row carries the start time, the id and the requested price, and matches the outcome
    ensures s.entry.timestamp == r.timestamp
    ensures s.entry.subscriptionId == req.subId && s.entry.newDeliveryPrice == req.newPrice
    ensures s.outcome == OutcomeOf(s.entry)
    // a failed fetch: "N/A", error with the fetch message, nobody prompted, no update
    ensures r.fetch.FetchFailed? ==>
      s.entry.oldDeliveryPrice == NotAvailable && s.entry.status == Error &&
      s.entry.error == r.fetch.message && !s.prompted && !s.updateCalled
    // a successful fetch: the fetched price is the old price on every path
    ensures r.fetch.Fetched? ==> s.entry.oldDeliveryPrice == r.fetch.deliveryPrice
    // the operator is asked exactly when the fetch worked and confirmation is not skipped
    ensures s.prompted <==> r.fetch.Fetched? && !skipConfirm
    // the update is called exactly when the fetch worked and the change is not declined
    ensures s.updateCalled <==> r.fetch.Fetched? && (skipConfirm || Confirmed(r.answer))
    // skipped exactly when the operator declined; never with confirmation switched off
    ensures s.entry.status == Skipped <==> r.fetch.Fetched? && !skipConfirm && !Confirmed(r.answer)
    ensures skipConfirm ==> s.entry.status != Skipped
    // success exactly when the update was called and worked
    ensures s.entry.status == Success <==> s.updateCalled && r.update.Updated?
    // an update failure keeps the fetched price and reports the update's message
    ensures r.fetch.Fetched? && (skipConfirm || Confirmed(r.answer)) && r.update.UpdateFailed? ==>
      s.entry.status == Error && s.entry.error == r.update.message &&
      s.entry.oldDeliveryPrice == r.fetch.deliveryPrice
    // the error column is empty unless the status is error
    ensures s.entry.status != Error ==> s.entry.error == ""
  {
    match r.fetch
    case FetchFailed(msg) =>
      var e := AuditEntry(r.timestamp, req.subId, NotAvailable, req.newPrice, Error, msg);
      Step(e, OutcomeOf(e), false, false)
    case Fetched(oldPrice) =>
      if !skipConfirm && !Confirmed(r.answer) then
        var e := AuditEntry(r.timestamp, req.subId, oldPrice, req.newPrice, Skipped, "");
        Step(e, OutcomeOf(e), true, false)
      else
        var e := match r.update
          case Updated => AuditEntry(r.timestamp, req.subId, oldPrice, req.newPrice, Success, "")
          case UpdateFailed(msg) => AuditEntry(r.timestamp, req.subId, oldPrice, req.newPrice, Error, msg);
        Step(e, OutcomeOf(e), !skipConfirm, true)
  }

  /** A fetch of "5.00", confirmation skipped, update done: a success row from "5.00" to "9.99". */
  lemma SuccessScenario(t: string)
    ensures Decide(Request("sub_1", "9.99"), true, Replies(t, Fetched("5.00"), "", Updated)) ==
      Step(AuditEntry(t, "sub_1", "5.00", "9.99", Success, ""), Outcome("sub_1", Success, None), false, true)
  {
  }

  /** A fetch failing with "not found": an error row with "N/A" as the old price, and no update. */
  lemma NotFoundScenario(t: string, skipConfirm: bool, answer: string, update: UpdateReply)
    ensures Decide(Request("sub_1", "9.99"), skipConfirm, Replies(t, FetchFailed("not found"), answer, update)) ==
      Step(AuditEntry(t, "sub_1", "N/A", "9.99", Error, "not found"), Outcome("sub_1", Error, Some("not found")), false, false)
  {
  }

  /**
   * The effects of a run: the audit log (which only grows), the ids fetched,
   * the number of confirmation prompts, the update calls made, and, for each
   * pause, how many subscriptions had been fetched when it began.
   */
  class Session {
    var audit: seq<AuditEntry>
    var fetches: seq<string>
    var prompts: nat
    var updates: seq<UpdateCall>
    var pauses: seq<nat>

    /** A run starts with whatever rows the audit file already holds. */
    constructor (existing: seq<AuditEntry>)
      ensures audit == existing && fetches == [] && prompts == 0 && updates == [] && pauses == []
    {
      audit, fetches, prompts, updates, pauses := existing, [], 0, [], [];
    }

    /** `logAudit`: append one row; earlier rows are never rewritten. */
    method LogAudit(e: AuditEntry)
      modifies this`audit
      ensures audit == old(audit) + [e]
    {
      audit := audit + [e];
    }

    /** The throttle's sleep, recorded with the number of subscriptions fetched in this session before it. */
    method Pause()
      modifies this`pauses
      ensures pauses == old(pauses) + [|fetches|]
    {
      pauses := pauses + [|fetches|];
    }

    /** `processUpdate`: one record, one audit row, one outcome. */
    method ProcessUpdate(req: Request, skipConfirm: bool, r: Replies) returns (o: Outcome)
      modifies this
      ensures o == Decide(req, skipConfirm, r).outcome
      ensures audit == old(audit) + [Decide(req, skipConfirm, r).entry]
      ensures fetches == old(fetches) + [req.subId]
      ensures prompts == old(prompts) + if Decide(req, skipConfirm, r).prompted then 1 else 0
      ensures updates == old(updates) +
        if Decide(req, skipConfirm, r).updateCalled then [UpdateCall(req.subId, req.newPrice)] else []
      ensures pauses == old(pauses)
    {
      var timestamp := r.timestamp;
      var oldPrice := NotAvailable;
      var failure: Option<string> := None;

      fetches := fetches + [req.subId];
      match r.fetch {
        case FetchFailed(msg) =>
          failure := Some(msg);
        case Fetched(price) =>
          oldPrice := price;
          if !skipConfirm {
            prompts := prompts + 1;
            if !Confirmed(r.answer) {
              LogAudit(AuditEntry(timestamp, req.subId, oldPrice, req.newPrice, Skipped, ""));
              return Outcome(req.subId, Skipped, None);
            }
          }
          updates := updates + [UpdateCall(req.subId, req.newPrice)];
          match r.update {
            case UpdateFailed(msg) =>
              failure := Some(msg);
            case Updated =>
              LogAudit(AuditEntry(timestamp, req.subId, oldPrice, req.newPrice, Success, ""));
              return Outcome(req.subId, Success, None);
          }
      }
      // the catch block: whichever call failed, the row keeps the old price known so far
      LogAudit(AuditEntry(timestamp, req.subId, oldPrice, req.newPrice, Error, failure.value));
      o := Outcome(req.subId, Error, Some(failure.value));
    }
  }
}
