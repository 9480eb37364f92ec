/**
 * The two run modes of `main`: the throttled batch loop over the parsed
 * CSV rows, and the single interactive record. The functions here say what
 * a whole batch does; `RunBatch` is proved to do exactly that.
 */
module Runner {
  import opened Audit
  import opened Confirmation
  import opened Workflow
  import opened Throttle

  /** The outcomes of the first k records of a batch, one per record, in input order. */
  function Outcomes(records: seq<Request>, skipConfirm: bool, replies: seq<Replies>, k: nat): (os: seq<Outcome>)
    requires |replies| == |records| && k <= |records|
    ensures |os| == k
  {
    if k == 0 then []
    else Outcomes(records, skipConfirm, replies, k - 1) + [Decide(records[k - 1], skipConfirm, replies[k - 1]).outcome]
  }

  /** The audit rows the first k records append: exactly one per record, in input order. */
  function Entries(records: seq<Request>, skipConfirm: bool, replies: seq<Replies>, k: nat): (es: seq<AuditEntry>)
    requires |replies| == |records| && k <= |records|
    ensures |es| == k
  {
    if k == 0 then []
    else Entries(records, skipConfirm, replies, k - 1) + [Decide(records[k - 1], skipConfirm, replies[k - 1]).entry]
  }

  /** The subscriptions the first k records fetch: each record's, once, in input order. */
  function Ids(records: seq<Request>, k: nat): (ids: seq<string>)
    requires k <= |records|
    ensures |ids| == k
  {
    if k == 0 then [] else Ids(records, k - 1) + [records[k - 1].subId]
  }

  /** How many times the first k records ask the operator to confirm. */
  function PromptCount(records: seq<Request>, skipConfirm: bool, replies: seq<Replies>, k: nat): (count: nat)
    requires |replies| == |records| && k <= |records|
    ensures count <= k
  {
    if k == 0 then 0
    else
      PromptCount(records, skipConfirm, replies, k - 1) +
      if Decide(records[k - 1], skipConfirm, replies[k - 1]).prompted then 1 else 0
  }

  /** The update calls the first k records make, in input order. */
  function UpdateCalls(records: seq<Request>, skipConfirm: bool, replies: seq<Replies>, k: nat): (cs: seq<UpdateCall>)
    requires |replies| == |records| && k <= |records|
    ensures |cs| <= k
  {
    if k == 0 then []
    else
      UpdateCalls(records, skipConfirm, replies, k - 1) +
      if Decide(records[k - 1], skipConfirm, replies[k - 1]).updateCalled
      then [UpdateCall(records[k - 1].subId, records[k - 1].newPrice)] else []
  }

  /** The i-th outcome of a batch is the one for the i-th record. */
  lemma {:induction false} OutcomesInOrder(records: seq<Request>, skipConfirm: bool, replies: seq<Replies>, k: nat)
    requires |replies| == |records| && k <= |records|
    ensures forall i :: 0 <= i < k ==>
      Outcomes(records, skipConfirm, replies, k)[i] == Decide(records[i], skipConfirm, replies[i]).outcome
  {
    if k > 0 {
      OutcomesInOrder(records, skipConfirm, replies, k - 1);
    }
  }

  /** The i-th audit row of a batch is the one for the i-th record, carrying its id. */
  lemma {:induction false} EntriesInOrder(records: seq<Request>, skipConfirm: bool, replies: seq<Replies>, k: nat)
    requires |replies| == |records| && k <= |records|
    ensures forall i :: 0 <= i < k ==>
      Entries(records, skipConfirm, replies, k)[i] == Decide(records[i], skipConfirm, replies[i]).entry &&
      Entries(records, skipConfirm, replies, k)[i].subscriptionId == records[i].subId
  {
    if k > 0 {
      EntriesInOrder(records, skipConfirm, replies, k - 1);
    }
  }

  /** Each record's subscription is fetched once, in input order. */
  lemma {:induction false} IdsInOrder(records: seq<Request>, k: nat)
    requires k <= |records|
    ensures forall i :: 0 <= i < k ==> Ids(records, k)[i] == records[i].subId
  {
    if k > 0 {
      IdsInOrder(records, k - 1);
    }
  }

  /** With confirmation switched off the operator is never asked. */
  lemma {:induction false} SkipConfirmNeverPrompts(records: seq<Request>, replies: seq<Replies>, k: nat)
    requires |replies| == |records| && k <= |records|
    ensures PromptCount(records, true, replies, k) == 0
  {
    if k > 0 {
      SkipConfirmNeverPrompts(records, replies, k - 1);
    }
  }

  /** With confirmation on, the operator is asked once for every record whose fetch worked. */
  lemma {:induction false} ConfirmingPromptsEveryFetched(records: seq<Request>, replies: seq<Replies>, k: nat)
    requires |replies| == |records| && k <= |records|
    requires forall i :: 0 <= i < |replies| ==> replies[i].fetch.Fetched?
    ensures PromptCount(records, false, replies, k) == k
  {
    if k > 0 {
      ConfirmingPromptsEveryFetched(records, replies, k - 1);
    }
  }

  /** With confirmation switched off and every fetch working, every record is updated, in order. */
  lemma {:induction false} SkipConfirmUpdatesAll(records: seq<Request>, replies: seq<Replies>, k: nat)
    requires |replies| == |records| && k <= |records|
    requires forall i :: 0 <= i < |replies| ==> replies[i].fetch.Fetched?
    ensures UpdateCalls(records, true, replies, k) ==
      seq(k, i requires 0 <= i < k => UpdateCall(records[i].subId, records[i].newPrice))
  {
    if k > 0 {
      SkipConfirmUpdatesAll(records, replies, k - 1);
    }
  }

  /**
   * Every update call is for some record of the batch, with that record's new
   * price, after its fetch succeeded and the change was not declined: a record
   * whose fetch failed, or that the operator declined, is never updated.
   */
  lemma {:induction false} UpdateCallsJustified(records: seq<Request>, skipConfirm: bool, replies: seq<Replies>, k: nat)
    requires |replies| == |records| && k <= |records|
    ensures forall c :: c in UpdateCalls(records, skipConfirm, replies, k) ==>
      exists i :: 0 <= i < k && c == UpdateCall(records[i].subId, records[i].newPrice) &&
                  replies[i].fetch.Fetched? && (skipConfirm || Confirmed(replies[i].answer))
  {
    if k > 0 {
      UpdateCallsJustified(records, skipConfirm, replies, k - 1);
    }
  }

  /** Regrouping appends; the loop below uses it to keep each effect log's invariant. */
  lemma AppendAssoc<T>(a: seq<T>, b: seq<T>, c: seq<T>)
    ensures a + b + c == a + (b + c)
  {
  }

  /**
   * The batch loop: process the records strictly in order, collect every
   * outcome, and pause after each 30th record while records remain.
   */
  method RunBatch(session: Session, records: seq<Request>, skipConfirm: bool, replies: seq<Replies>)
      returns (results: seq<Outcome>)
    requires |replies| == |records|
    modifies session
    ensures results == Outcomes(records, skipConfirm, replies, |records|)
    ensures session.audit == old(session.audit) + Entries(records, skipConfirm, replies, |records|)
    ensures session.fetches == old(session.fetches) + Ids(records, |records|)
    ensures session.prompts == old(session.prompts) + PromptCount(records, skipConfirm, replies, |records|)
    ensures session.updates == old(session.updates) + UpdateCalls(records, skipConfirm, replies, |records|)
    ensures session.pauses == old(session.pauses) + Offset(PausePoints(|records|), |old(session.fetches)|)
  {
    results := [];
    var processedCount := 0;
    ghost var base := |session.fetches|;
    for i := 0 to |records|
      invariant processedCount == i
      invariant results == Outcomes(records, skipConfirm, replies, i)
      invariant session.audit == old(session.audit) + Entries(records, skipConfirm, replies, i)
      invariant session.fetches == old(session.fetches) + Ids(records, i)
      invariant session.prompts == old(session.prompts) + PromptCount(records, skipConfirm, replies, i)
      invariant session.updates == old(session.updates) + UpdateCalls(records, skipConfirm, replies, i)
      invariant session.pauses == old(session.pauses) + PausesFrom(i, |records|, base)
    {
      ghost var s := Decide(records[i], skipConfirm, replies[i]);
      AppendAssoc(old(session.audit), Entries(records, skipConfirm, replies, i), [s.entry]);
      AppendAssoc(old(session.fetches), Ids(records, i), [records[i].subId]);
      AppendAssoc(old(session.updates), UpdateCalls(records, skipConfirm, replies, i),
        if s.updateCalled then [UpdateCall(records[i].subId, records[i].newPrice)] else []);
      AppendAssoc(old(session.pauses), PausesFrom(i, |records|, base),
        if PauseAfter(i + 1, |records|) then [base + i + 1] else []);
      var res := session.ProcessUpdate(records[i], skipConfirm, replies[i]);
      results := results + [res];
      processedCount := processedCount + 1;

      if processedCount % ThrottleEvery == 0 && processedCount < |records| {
        session.Pause();
      }
    }
    PausesFromShift(|records|, |records|, base);
  }

  /** The interactive mode proceeds only when both answers are non-empty. */
  predicate InputGiven(subId: string, newPrice: string)
    ensures InputGiven(subId, newPrice) <==> |subId| > 0 && |newPrice| > 0
  {
    subId != "" && newPrice != ""
  }

  /** Interactive mode: one record if both an id and a price were entered, otherwise nothing. */
  method RunInteractive(session: Session, subId: string, newPrice: string, skipConfirm: bool, r: Replies)
      returns (processed: bool)
    modifies session
    ensures processed <==> InputGiven(subId, newPrice)
    ensures processed ==>
      var s := Decide(Request(subId, newPrice), skipConfirm, r);
      session.audit == old(session.audit) + [s.entry] &&
      session.fetches == old(session.fetches) + [subId] &&
      session.prompts == old(session.prompts) + (if s.prompted then 1 else 0) &&
      session.updates == old(session.updates) + (if s.updateCalled then [UpdateCall(subId, newPrice)] else [])
    ensures !processed ==>
      session.audit == old(session.audit) && session.fetches == old(session.fetches) &&
      session.prompts == old(session.prompts) && session.updates == old(session.updates)
    ensures session.pauses == old(session.pauses)
  {
    processed := InputGiven(subId, newPrice);
    if processed {
      var _ := session.ProcessUpdate(Request(subId, newPrice), skipConfirm, r);
    }
  }
}
