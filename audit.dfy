/**
 * The audit trail: one row per subscription the tool tried to change.
 * Rows go to logs/audit.csv with a fixed column order; the model keeps
 * them as values and leaves the file and CSV quoting out.
 */
module Audit {

  /** The three ways one record can end. */
  datatype Status = Success | Skipped | Error {
    /** The word written to the `status` column and shown in the summary. */
    function Name(): (s: string)
      ensures s in {"success", "skipped", "error"}
    {
      match this
      case Success => "success"
      case Skipped => "skipped"
      case Error => "error"
    }
  }

  /** Placeholder for the old price when the subscription could not be read. */
  const NotAvailable: string := "N/A"

  /** One audit row. */
  datatype AuditEntry = AuditEntry(
    timestamp: string,
    subscriptionId: string,
    oldDeliveryPrice: string,
    newDeliveryPrice: string,
    status: Status,
    error: string)

  /** The header of the audit file, in the order every row is written. */
  const Columns: seq<string> :=
    ["timestamp", "subscription_id", "old_delivery_price", "new_delivery_price", "status", "error"]

  /** The value the CSV writer picks for column `name` from a row object; an unknown column is empty. */
  function Column(e: AuditEntry, name: string): string
  {
    if name == "timestamp" then e.timestamp
    else if name == "subscription_id" then e.subscriptionId
    else if name == "old_delivery_price" then e.oldDeliveryPrice
    else if name == "new_delivery_price" then e.newDeliveryPrice
    else if name == "status" then e.status.Name()
    else if name == "error" then e.error
    else ""
  }

  /** The cells of one CSV line: one per header column, each the entry's value for that column. */
  function Row(e: AuditEntry): (cells: seq<string>)
    ensures |cells| == |Columns|
    ensures forall k :: 0 <= k < |Columns| ==> cells[k] == Column(e, Columns[k])
  {
    [e.timestamp, e.subscriptionId, e.oldDeliveryPrice, e.newDeliveryPrice, e.status.Name(), e.error]
  }

  /** Two entries that differ in any field give different lines, so no row ever stands for another. */
  lemma RowInjective(e1: AuditEntry, e2: AuditEntry)
    requires Row(e1) == Row(e2)
    ensures e1 == e2
  {
  }
}
