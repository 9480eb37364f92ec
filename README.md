# Delivery-price batch updater: a Dafny model

This project models the orchestration logic of a command-line tool. The tool changes the `deliveryPrice` of customer subscriptions held by a billing service. It updates one subscription interactively, or a batch of them listed in a CSV file. For every subscription it:

- fetches the current record and remembers the old price;
- asks the operator to confirm the change, unless confirmation is switched off;
- calls the update;
- classifies the result as `success`, `skipped` or `error`;
- appends exactly one row to an append-only audit log;
- returns one outcome.

The batch runner handles records strictly in input order and collects the outcomes. It sleeps after every 30th record while records remain. At the end it prints a summary table.

Modules, one per component:

- `Audit` (audit.dfy): the status values, the audit row and its fixed column order.
- `Confirmation` (confirmation.dfy): the operator's yes/no test.
- `Workflow` (workflow.dfy): the per-record workflow. `Decide` states what one record does as a function of what the world answers. The `Session` class holds the effects: the audit log, the fetched ids, the prompt count, the update calls and the pauses. `Session.ProcessUpdate` is the step-by-step workflow, proved equal to `Decide`.
- `Throttle` (throttle.dfy): where the batch pauses, and how many pauses there are.
- `Runner` (runner.dfy): the batch loop (`RunBatch`), proved against functions that describe a whole batch, and the interactive mode.
- `Summary` (summary.dfy): the rows of the final report.

The clock, the billing service and the operator are not called. What they answer while one record is processed is an input, `Workflow.Replies`. It holds the timestamp, the fetch reply (a price or a failure message), the operator's answer and the update reply (done or a failure message). For a batch, one `Replies` value is given per record.

Confirmation does not trim the answer: `src/index.js:48` lower-cases it and compares it with `"y"`, so `" y"` declines.

A pause is recorded with the number of subscriptions the session had fetched when it began. In a fresh session that is the number of records processed before the sleep.

## Model

| member | source | states |
|---|---|---|
| `Audit.Status.Name` | src/index.js:50-63 | every status is written as one of "success", "skipped", "error" |
| `Audit.Row` | src/index.js:29 | a row has one cell per header column, in the fixed order timestamp, subscription_id, old_delivery_price, new_delivery_price, status, error; cell k is the entry's value for column k |
| `Audit.RowInjective` | src/index.js:29-30 | two entries with the same line are the same entry, so rows that differ in any field (for example only in status) give distinct lines |
| `Confirmation.Lower` | src/index.js:48 | lower-casing keeps the length and lower-cases each character |
| `Confirmation.LowerChar` | src/index.js:48 | an upper-case letter maps to its lower-case form; every other character is unchanged |
| `Confirmation.Confirmed` | src/index.js:48 | an accepted answer is a single character, "y" or "Y" |
| `Confirmation.ConfirmedIff` | src/index.js:47-48 | the change is confirmed if and only if the answer is exactly "y" or "Y" |
| `Confirmation.ConfirmedExamples` | src/index.js:47-48 | "y" and "Y" confirm; "", "n", " y", "y " and "yes" decline, because the answer is not trimmed |
| `Workflow.OutcomeOf` | src/index.js:51-63 | the outcome carries the row's id and status; it has an error exactly when the status is error, and that error is the row's error text |
| `Workflow.Decide` | src/index.js:33-65 | each row carries the start timestamp, the id and the new price, and agrees with the outcome. A failed fetch gives old price "N/A", status error and the fetch message, with no prompt and no update. After a successful fetch the fetched price is the old price on every path. The operator is prompted exactly when the fetch worked and confirmation is on. The update is called exactly when the fetch worked and the change was not declined. A record is skipped exactly when the operator declined, so never with confirmation off. Success means the update was called and worked. An update failure keeps the fetched price and reports the update's message. The error column is empty unless the status is error |
| `Workflow.SuccessScenario` | src/index.js:55-58 | fetch "5.00", confirmation off, update done: success row from "5.00" to "9.99" with an empty error, and the update is called |
| `Workflow.NotFoundScenario` | src/index.js:60-63 | a fetch failing with "not found" gives an error row with old price "N/A" and error "not found", whatever the answer and update reply; no prompt and no update |
| `Workflow.Session.constructor` | src/index.js:25-27 | a run starts with the rows already in the audit file and no other effects |
| `Workflow.Session.LogAudit` | src/index.js:23-31 | an append adds one row at the end and leaves earlier rows unchanged |
| `Workflow.Session.Pause` | src/index.js:90-94 | a pause appends one entry: the number of subscriptions fetched so far in the session, which is where in the run the sleep happens |
| `Workflow.Session.ProcessUpdate` | src/index.js:33-65 | one call appends exactly one audit row, fetches the id once, prompts at most once, calls the update at most once, and returns one outcome, all as `Decide` says; pauses are untouched |
| `Throttle.PauseAfter` | src/index.js:90 | a pause is taken only while records remain; after a real record it needs at least 30 processed; two pauses never follow consecutive records |
| `Throttle.PausesFromShift` | src/index.js:84-94 | counting pause positions from the fetches made earlier in the session only shifts each position by that number |
| `Throttle.PausesUpToMembers` | src/index.js:88-94 | while the first k records are processed, a pause follows record p exactly when 1 <= p <= k, p is a multiple of 30 and p is below the batch size |
| `Throttle.PausesUpToIncreasing` | src/index.js:84-94 | pauses are recorded in processing order, never twice after the same record |
| `Throttle.PausesUpToCount` | src/index.js:88-90 | while records remain, k processed records have caused k / 30 pauses |
| `Throttle.PauseCount` | src/index.js:84-95 | a batch of n records pauses (n - 1) / 30 times, or 0 times when n = 0 |
| `Throttle.PausePointsMembers` | src/index.js:90 | a batch of n pauses after exactly the multiples of 30 below n, in increasing order |
| `Throttle.NoPauseForThirty` | src/index.js:90 | 30 records never pause |
| `Throttle.OnePauseForThirtyOne` | src/index.js:90 | 31 records pause once, after record 30 |
| `Throttle.TwoPausesForSixtyOne` | src/index.js:90 | 61 records pause after records 30 and 60, not after 61 |
| `Runner.Outcomes` | src/index.js:85-87 | the first k records give exactly k outcomes |
| `Runner.Entries` | src/index.js:85-86 | the first k records append exactly k audit rows |
| `Runner.Ids` | src/index.js:85-86 | the first k records fetch exactly k ids |
| `Runner.UpdateCalls` | src/index.js:55 | the first k records make at most k update calls |
| `Runner.PromptCount` | src/index.js:46-47 | the first k records prompt at most k times |
| `Runner.ConfirmingPromptsEveryFetched` | src/index.js:46-47 | with confirmation on and every fetch working, each record prompts exactly once |
| `Runner.OutcomesInOrder` | src/index.js:85-87 | outcome i is the one for record i |
| `Runner.EntriesInOrder` | src/index.js:85-86 | audit row i is the one for record i and carries its subscription id |
| `Runner.IdsInOrder` | src/index.js:85-86 | fetch i is for record i's subscription |
| `Runner.SkipConfirmNeverPrompts` | src/index.js:46-47 | with confirmation off, a batch never prompts the operator |
| `Runner.SkipConfirmUpdatesAll` | src/index.js:46-55 | with confirmation off and every fetch working, each record is updated with its own price, in input order |
| `Runner.UpdateCallsJustified` | src/index.js:39-55 | every update call is for some record of the batch, with that record's price, after its fetch succeeded and the change was not declined |
| `Runner.RunBatch` | src/index.js:84-95 | the results are the outcomes of all records in order. The audit log, the fetched ids, the prompt count and the update calls grow by exactly the batch's share. The session sleeps after exactly those records whose 1-based position is a multiple of 30 below the batch size. Each sleep is recorded with the number of fetches made before it, so it falls between record p and record p + 1 |
| `Runner.RunInteractive` | src/index.js:100-107 | a record is processed if and only if both the id and the price are non-empty. It then appends that record's row, fetches its id once, prompts and calls the update exactly as `Decide` says. Otherwise nothing changes. No pause is taken |
| `Runner.InputGiven` | src/index.js:103 | the interactive guard holds exactly when both the id and the price are non-empty strings |
| `Summary.ErrorCell` | src/index.js:98 | the Error cell is never empty: it is the error text when present and non-empty, otherwise "-" |
| `Summary.RowOf` | src/index.js:98 | a summary row shows the outcome's id and one of the three status words; its Error cell is never empty and is "-" when the outcome has no error |
| `Summary.Summarize` | src/index.js:98 | one summary row per outcome, in the same order |
| `Summary.BatchSummary` | src/index.js:84-98 | row i of a batch summary shows record i's id and status. Its Error cell is the failure message for a record that failed with a non-empty message, and "-" for every other record. With confirmation off, no row says "skipped" |

## Left out

- HTTP calls, credential bootstrap (`applyAuth`) and error-message wrapping in src/client.js are left out. Fetch and update are abstract replies carrying a price or an opaque message.
- The unwrapping `subData.data || subData` (src/index.js:40) depends on the untyped shape of the remote JSON. The fetch reply is modelled as the price itself.
- Command-line parsing, readline prompting and console output are left out. The operator's answer, the interactive id and the interactive price are inputs.
- The audit file is modelled as a sequence of rows. The model leaves out the directory and file creation, the header written only when the file is new, CSV quoting and the append to disk.
- Appends are assumed to succeed. In the code, a throwing append on the skip or success path would be caught and logged again as an error row. The model does not capture that case.
- The code does not check for the `subscription_id` and `new_delivery_price` columns. The model takes batch rows that have both.
- Reading and parsing the batch file are left out, including the exit when the file is missing. The model starts from the parsed rows.
- Wall-clock timestamps are an opaque string given per record. The 60-second sleep is recorded as a pause position, without its duration.
- `process.exit` paths and the top-level fatal-error handler are left out.
- Confirmation.LowerChar: lower-cases only the letters A to Z, not the full Unicode case mapping of `toLowerCase`. No other character lower-cases to "y", so which answers confirm is unchanged.
