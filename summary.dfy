/**
 * The end-of-batch report: one row per outcome, in processing order, with
 * "-" standing in for a missing or empty error.
 */
module Summary {
  import opened Audit
  import opened Workflow
  import opened Runner

  /** One line of the summary table: ID, Status, Error. */
  datatype SummaryRow = SummaryRow(id: string, status: string, error: string)

  /** `r.error || '-'`: the error text, or "-" when there is none or it is empty. */
  function ErrorCell(o: Outcome): (cell: string)
    ensures cell != ""
    ensures o.error.Some? && o.error.value != "" ==> cell == o.error.value
    ensures o.error.None? || o.error.value == "" ==> cell == "-"
  {
    match o.error
    case Some(e) => if e != "" then e else "-"
    case None => "-"
  }

  /** The summary row of one outcome. */
  function RowOf(o: Outcome): (row: SummaryRow)
    ensures row.id == o.subId
    ensures row.status in {"success", "skipped", "error"}
    ensures row.error != ""
    ensures o.error.None? ==> row.error == "-"
  {
    SummaryRow(o.subId, o.status.Name(), ErrorCell(o))
  }

  /** `results.map(...)`: one row per outcome, in the same order. */
  function Summarize(results: seq<Outcome>): (rows: seq<SummaryRow>)
    ensures |rows| == |results|
    ensures forall i :: 0 <= i < |results| ==> rows[i] == RowOf(results[i])
  {
    seq(|results|, i requires 0 <= i < |results| => RowOf(results[i]))
  }

  /**
   * The summary of a batch has one row per record, in input order, showing
   * the record's id and status; its Error cell is the failure message for a
   * record that failed with a non-empty message and "-" for every other record.
   * With confirmation switched off no row says "skipped".
   */
  lemma BatchSummary(records: seq<Request>, skipConfirm: bool, replies: seq<Replies>)
    requires |replies| == |records|
    ensures var rows := Summarize(Outcomes(records, skipConfirm, replies, |records|));
      |rows| == |records| &&
      forall i :: 0 <= i < |records| ==>
        var e := Decide(records[i], skipConfirm, replies[i]).entry;
        rows[i].id == records[i].subId &&
        rows[i].status == e.status.Name() &&
        (e.status == Error && e.error != "" ==> rows[i].error == e.error) &&
        (e.status != Error || e.error == "" ==> rows[i].error == "-") &&
        (skipConfirm ==> rows[i].status != "skipped")
  {
    OutcomesInOrder(records, skipConfirm, replies, |records|);
  }
}
