# cicero run service and Nomad event store, in Dafny

This project models two parts of cicero, a workflow engine that schedules
its runs as Nomad jobs.

**The run service** (`src/application/service/run.go`) covers three things:

- **The log aggregation loop `LokiQueryRange`** pages through Loki range
  queries. It sorts each entry into stdout or stderr according to its
  stream's `source` label. It stops at 10000 lines. When a stream fills a
  whole page of 5000 entries, the next request starts at that stream's last
  timestamp.
- **The selectors** used by `JobLogs` and `RunLogs`.
- **The Run lifecycle operations** `Save`, `Update`, `End` and `Cancel`.

**The Nomad event repository** (`src/infrastructure/persistence/nomad_event.go`)
covers the table and its queries:

- The upsert `Save` and the flag update `Update`.
- `GetByHandled` and the resume cursor `GetLastNomadEventIndex`.
- The allocation history of a job, and its "latest per allocation" variant.

The model has four modules:

- **`LokiLog`** (`loki_log.dfy`): the aggregation as recursive functions, and
  a reference definition of what it should return. The backend is a total
  function from a request to a response. `time.Now()` is a clock indexed by
  iteration. The reference tags every delivered entry with its side and
  flattens the pages in delivery order; the output is the prefix of that
  sequence whose length is the returned total, and the total is the cap
  exactly when the aggregation stopped by reaching it.
- **`RunService`** (`run_service.dfy`):
  - the imperative loop `LokiQueryRange`, proved equal to the function
    `QueryRange`;
  - `JobLogs` and `RunLogs`;
  - the lifecycle as classes over a store of runs and run outputs and a Nomad
    client.
- **`NomadEvents`** (`nomad_event.dfy`): the table is a sequence of rows held
  by a repository class. The SQL queries are pure functions over that
  sequence. The text sort is a stable insertion sort.
- **`LokiLogProperties`** and **`NomadEventProperties`**: the lemmas.

Some consequences proved about the aggregation:

- Its output is always the classified prefix of what the backend delivered.
  This holds on the error paths as well.
- At most two requests are sent. A second request happens only when the
  first page held a single stream of at least 5000 entries. Two full streams
  already reach the 10000-line cap, so a page that asks for more cannot hold
  more than one full stream.

## Model

| member | source | states |
|---|---|---|
| `LokiLog.ConsumeEntries` | src/application/service/run.go:225-235 | the entry loop stops (Capped) exactly when the stream holds enough entries to reach 10000 lines, and the total is then exactly 10000; otherwise every entry was appended and the total stays below the cap |
| `LokiLog.ConsumeStreams` | src/application/service/run.go:222-242 | one page never takes the total past 10000; a page that asks for another request leaves the total below the cap and has appended at least 5000 lines per stream |
| `LokiLog.Paginate` | src/application/service/run.go:179-243 | the outer loop sends one or two requests, never exceeds the cap, sends exactly one request once 5000 lines are held; every request carries the query, limit 5000 and the clock reading of its own iteration as `end`; the first starts at the current cursor; the error returned is the one the last response causes |
| `LokiLog.QueryRange` | src/application/service/run.go:167-177 | starting from empty stdout/stderr and cursor 0, at most 10000 lines and 1 or 2 requests, the first starting at the epoch |
| `LokiLogProperties.StreamClassification` | src/application/service/run.go:223-230 | a stream's entries all go, one line per entry with its timestamp and text and in entry order, to stderr when its labels map `source` to `stderr` and to stdout otherwise (no `source` label or another value); the other side gets none |
| `LokiLogProperties.ConsumeEntriesAppends` | src/application/service/run.go:225-235 | one stream's loop appends a prefix of its tagged entries, in entry order, each on its side |
| `LokiLogProperties.ConsumeStreamsAppends` | src/application/service/run.go:222-242 | one page appends a prefix of its entries in stream order then entry order; a page that asks for more was consumed whole |
| `LokiLogProperties.CursorIsLastEntry` | src/application/service/run.go:237-238 | a page that asks for more holds exactly one stream of at least 5000 entries, and the new cursor is that stream's last entry's timestamp |
| `LokiLogProperties.LaterStreamsNotRead` | src/application/service/run.go:239-241 | after the first short stream the page is finished, and streams after it change nothing |
| `LokiLogProperties.PaginateEnds` | src/application/service/run.go:197-220 | a response error (transport, non-2xx, undecodable, non-streams) returns the output accumulated so far with that error; zero streams returns it with no error |
| `LokiLogProperties.PaginateAppends` | src/application/service/run.go:179-243 | from any state, the loop appends a prefix of the entries the backend delivered for its requests |
| `LokiLogProperties.OutputIsClassifiedPrefix` | src/application/service/run.go:167-244 | the returned stdout and stderr are the stdout and stderr sides of the first Total delivered entries: nothing dropped, duplicated or reordered, also when an error is returned |
| `LokiLogProperties.EmptyFirstPage` | src/application/service/run.go:218-220 | a first response with zero streams yields `{[], []}`, no error and one request |
| `LokiLogProperties.FirstRequestFails` | src/application/service/run.go:197-216 | a failing first response yields its error with the empty output after one request |
| `LokiLogProperties.SecondRequestCursor` | src/application/service/run.go:189-242 | a second request is sent iff the first page succeeded, was non-empty and asked for more; it then held one stream of at least 5000 entries and the second request starts at that stream's last timestamp and ends at the second clock reading |
| `LokiLogProperties.FullFirstStreamPages` | src/application/service/run.go:237-238 | a single first stream of 5000 to 9999 entries is followed by exactly one more request from its last timestamp |
| `LokiLogProperties.FullStreamsEndOnlyAtCap` | src/application/service/run.go:232-241 | a page of full streams only finishes the call by reaching the cap |
| `LokiLogProperties.AlwaysFullPagesReachCap` | src/application/service/run.go:168-171 | a backend that always returns full pages yields exactly 10000 lines and no error |
| `RunService.LokiQueryRange` | src/application/service/run.go:167-244 | the imperative loop returns exactly the output, error and request trace of `QueryRange` |
| `RunService.AppendPage` | src/application/service/run.go:222-242 | the stream loop ends (done) with the output and cursor of `ConsumeStreams` |
| `RunService.AppendStream` | src/application/service/run.go:225-235 | the entry loop ends with the output of `ConsumeEntries`, reporting whether the cap was reached |
| `RunService.JobLogs` | src/application/service/run.go:152-157 | aggregates with the job selector (label `nomad_job_id`); every request carries that selector, which constrains exactly the label `nomad_job_id` |
| `RunService.RunLogs` | src/application/service/run.go:159-165 | aggregates with the allocation selector (labels `nomad_alloc_id`, `nomad_task_group`); every request carries that selector, which constrains exactly those two labels in that order |
| `RunService.RunStore.constructor` | src/application/service/run.go:48-55 | the stores start empty |
| `RunService.RunStore.GetByNomadJobId` | src/application/service/run.go:69-76 | the stored run iff one exists for the id, else NotFound; `Save`, `Update`, `End` and `Cancel` state their effect through it |
| `RunService.RunStore.GetOutputByNomadJobId` | src/application/service/run.go:78-85 | the stored output iff one exists for the id, else NotFound; `Save`, `End` and `Cancel` state their effect through it |
| `RunService.RunStore.SaveRun` | src/application/service/run.go:103-105 | on success the run is stored under its job id, on failure nothing changes; outputs untouched |
| `RunService.RunStore.SaveOutput` | src/application/service/run.go:106-108 | on success the output is stored under the job id, on failure nothing changes; runs untouched |
| `RunService.RunStore.UpdateRun` | src/application/service/run.go:115-117 | on success an existing run row is overwritten and a missing one is not created; on failure nothing changes |
| `RunService.RunStore.DeleteOutput` | src/application/service/run.go:127-129 | on success the output row is gone (absent is no error), on failure nothing changes; runs untouched |
| `RunService.RunStore.Restore` | src/application/service/run.go:138-147 | the transaction rollback: both tables return to the snapshot |
| `RunService.NomadClient.constructor` | src/application/service/run.go:44 | no deregistration has been requested yet |
| `RunService.NomadClient.JobsDeregister` | src/application/service/run.go:141 | the request (job id, purge flag) is recorded; the error is the caller-supplied outcome |
| `RunService.Lifecycle.constructor` | src/application/service/run.go:48-55 | the service holds the given store and client |
| `RunService.Lifecycle.Save` | src/application/service/run.go:101-111 | insert run then output; a failed run insert skips the output insert and returns its error; the resulting tables for every combination of outcomes; when both inserts succeed, both lookups by the job id return what was saved |
| `RunService.Lifecycle.Update` | src/application/service/run.go:113-120 | updates the run row only; error iff the update fails; after a successful update of an existing run the lookup returns the new run, after a failed one the lookup is unchanged |
| `RunService.Lifecycle.End` | src/application/service/run.go:122-132 | update run then delete output; a failed update skips the delete; the resulting tables for every combination of outcomes; after a successful end the output lookup is NotFound, and an existing run reads back as updated once its update succeeds |
| `RunService.Lifecycle.Cancel` | src/application/service/run.go:134-150 | a transaction that cannot be begun returns its error and does nothing; otherwise delete output then deregister (purge false); no deregistration when the delete fails; runs never change; the output is deleted iff delete, deregister and commit all succeed, otherwise it is as before; on error the output lookup is unchanged, on success it is NotFound |
| `NomadEvents.FindUid` | src/infrastructure/persistence/nomad_event.go:37 | the conflict target: finds a row with the uid iff one exists, and the first one |
| `NomadEvents.Upsert` | src/infrastructure/persistence/nomad_event.go:33-42 | on a uid conflict: no row added, only that row's topic overwritten, the stored handled flag returned; otherwise exactly one row appended, carrying the generated uid, the event's topic, type, key, index and payload, its filter keys (the empty list when absent) and handled false; the event gets the uid back; uid uniqueness is preserved |
| `NomadEvents.SetHandled` | src/infrastructure/persistence/nomad_event.go:45-52 | same length; the rows with that uid get the new flag, every other row and field is unchanged |
| `NomadEvents.GetByHandled` | src/infrastructure/persistence/nomad_event.go:54-63 | exactly the rows with that flag, each as often as in the table |
| `NomadEvents.GetLastNomadEventIndex` | src/infrastructure/persistence/nomad_event.go:65-71 | 0 on an empty table; otherwise an index of some row and no smaller than any row's index |
| `NomadEvents.Insert` | src/infrastructure/persistence/nomad_event.go:84 | inserting one row keeps a sequence sorted by create_time text and adds exactly that row |
| `NomadEvents.SortByCreateTime` | src/infrastructure/persistence/nomad_event.go:84 | a permutation sorted ascending by create_time compared as text |
| `NomadEvents.AllocationRows` | src/infrastructure/persistence/nomad_event.go:75-85 | sorted by create_time; exactly the rows with topic Allocation, type AllocationUpdated and the job's JobID (and, for the latest variant, not superseded), with their multiplicities |
| `NomadEvents.DecodeAll` | src/infrastructure/persistence/nomad_event.go:89-96 | an error iff some row's document fails to decode, with no partial list; otherwise one decoded allocation per row, in row order |
| `NomadEvents.NomadEventRepository.constructor` | src/infrastructure/persistence/nomad_event.go:20-22 | an empty table with unique uids |
| `NomadEvents.NomadEventRepository.Save` | src/infrastructure/persistence/nomad_event.go:28-43 | the table and the returned event are those of `Upsert`; uids stay unique |
| `NomadEvents.NomadEventRepository.Update` | src/infrastructure/persistence/nomad_event.go:45-52 | the table is that of `SetHandled`; uids stay unique; at most one row changes |
| `NomadEvents.NomadEventRepository.QueryAllocations` | src/infrastructure/persistence/nomad_event.go:73-97 | the decoded allocations of `AllocationRows`, or an error if any fails to decode |
| `NomadEvents.NomadEventRepository.GetEventAllocationByJobId` | src/infrastructure/persistence/nomad_event.go:99-101 | the decoded full allocation history of the job, ordered by create_time |
| `NomadEvents.NomadEventRepository.GetLatestEventAllocationByJobId` | src/infrastructure/persistence/nomad_event.go:103-115 | the decoded latest rows per allocation of the job, ordered by create_time |
| `NomadEventProperties.SaveIdempotent` | src/infrastructure/persistence/nomad_event.go:33-42 | replaying a Save with the same generated uid adds no row and changes nothing, and returns the same event |
| `NomadEventProperties.SaveReportsStoredHandled` | src/infrastructure/persistence/nomad_event.go:33-42 | a Save that conflicts after an Update returns the flag that Update stored, and adds no row |
| `NomadEventProperties.UpdateNoMatchUnchanged` | src/infrastructure/persistence/nomad_event.go:45-52 | an Update of a uid that no row carries leaves the table unchanged |
| `NomadEventProperties.UpdateKeepsUids` | src/infrastructure/persistence/nomad_event.go:45-52 | Update preserves uid uniqueness |
| `NomadEventProperties.UpdateChangesAtMostOneRow` | src/infrastructure/persistence/nomad_event.go:45-52 | with unique uids, an Update changes at most one row |
| `NomadEventProperties.ConflictRowIsUnique` | src/infrastructure/persistence/nomad_event.go:33-42 | with unique uids, the row a conflicting Save overwrites is the only row carrying that uid |
| `NomadEventProperties.UpdatedRowListed` | src/infrastructure/persistence/nomad_event.go:45-63 | after Update(uid, h) the updated row is among GetByHandled(h) |
| `NomadEventProperties.NoStaleRowListed` | src/infrastructure/persistence/nomad_event.go:45-63 | after Update(uid, h) no row with that uid is among GetByHandled(not h) |
| `NomadEventProperties.GetByHandledPartition` | src/infrastructure/persistence/nomad_event.go:54-63 | GetByHandled(true) and GetByHandled(false) together are the whole table |
| `NomadEventProperties.ResumeCursorExample` | src/infrastructure/persistence/nomad_event.go:65-71 | indices 3, 1, 7, 2 give 7; the empty table gives 0 |
| `NomadEventProperties.FilterSort` | src/infrastructure/persistence/nomad_event.go:75-85 | filtering the sorted rows equals sorting the filtered rows |
| `NomadEventProperties.LatestIsFilteredHistory` | src/infrastructure/persistence/nomad_event.go:103-115 | the latest query is the full history in the same order with the superseded rows removed, so it is a subsequence of the history |
| `NomadEventProperties.LatestHasMaxIndex` | src/infrastructure/persistence/nomad_event.go:104-114 | a kept row's index is at least that of every row of the job with the same allocation ID |
| `NomadEventProperties.LatestCoversEveryAllocation` | src/infrastructure/persistence/nomad_event.go:104-114 | every allocation in the job's history has a kept row that is no older |
| `NomadEventProperties.LatestUniquePerAllocation` | src/infrastructure/persistence/nomad_event.go:104-114 | with distinct indices, the latest query holds one row per allocation ID |
| `NomadEventProperties.LatestWinsExample` | src/infrastructure/persistence/nomad_event.go:103-115 | three updates of one allocation with indices 10, 20, 15 leave only the one with index 20 |

## Design notes

Two behaviours of the code that a reader might not expect are kept as written:

- On every error path, `LokiQueryRange` returns the lines it has accumulated
  along with the error (run.go:186-215). The model returns them as well,
  rather than discarding partial output.
- `Update` on the nomad_event table issues an UPDATE and ignores how many rows
  it affected (nomad_event.go:46-51). An Update of a uid that no row carries
  therefore succeeds and changes nothing; the model does not raise an error
  for a missing row.

Other modelling decisions:

- **The uid on insert.** The INSERT of `Save` does not list `uid`
  (nomad_event.go:35). The uid a new row gets is therefore the table's to
  assign, and is the `generated` parameter here. The conflict branch is taken
  exactly when a row already carries that uid. Save is idempotent for a
  replayed event only when the table assigns it the same uid again.
- **`handled` on insert.** A new row's `handled` is false, taken as the
  column default.
- **The `NOT EXISTS` subquery.** Its unqualified `topic`, `type` and
  `payload` refer to the inner row `e2`, as SQL scoping resolves them.
- **Sort order.** `create_time` is compared as text, by code point (the "C"
  collation). Postgres leaves the order of equal keys unspecified. The model
  fixes one such order, a stable sort of table order, and its lemmas hold for
  that order.
- **Lifecycle transactions.** `Save`, `Update` and `End` run in a
  transaction their caller owns. When their second step fails, the first
  step's effect stays until that caller rolls back.
  - `Cancel` runs in its own transaction: a snapshot, restored unless the
    delete, the deregistration and the commit all succeed. A failure to begin
    that transaction is a parameter `beginOk`; it returns `BeginFailed`.
  - Deregistration is an external call that the rollback cannot undo. After a
    failed commit, the output is restored but the job stays deregistered.

## Left out

- HTTP request construction, URL encoding and the `http.NewRequest` failure
  (run.go:180-187). Requests are values and the backend is a function, so
  building a request cannot fail.
- JSON decoding of Loki responses and of allocation documents. Both are
  abstract: a `Body` that may be undecodable, and a caller-supplied partial
  decoder.
- The rendering of the LogQL selectors with Go `%q` quoting. A `Selector` is
  a datatype that records which labels it constrains.
- `time.Now()` is a clock function of the iteration number.
- Storage errors of the lookups `GetByNomadJobId` and `GetOutputByNomadJobId`
  other than "no row" (run.go:71, run.go:80). A lookup returns the row or
  NotFound; a failing database is not modelled for reads.
- Error messages and their wrapping, and logging. Errors are datatypes.
- The `direction=FORWARD` query parameter. The backend is taken to answer in
  that direction.
- The run and run-output repositories, whose source is not part of this
  model. Each statement is taken to succeed or fail as a caller-supplied flag
  says, and a failed statement changes nothing.
- Database connectivity and query failures of the Nomad event repository.
  Its queries always succeed; only decoding can fail.
- Concurrent transactions and isolation levels. Everything is sequential.
- `GetByActionId` and `GetAll` (run.go:87-99): they pass through to a
  repository whose queries are not part of this model.
- `NewRunService`'s Prometheus client construction and its fatal path, and
  `WithQuerier`.
- `src/application/service/fact.go` is not part of this model. Its methods
  are pass-throughs to a repository.
- JSON null paths: a payload whose `Allocation` lacks `ID`, `JobID` or
  `CreateTime` cannot appear. A payload either has an allocation with all
  three fields or has none.
- The Go-level aliasing of `Save` writing into `*event`. The saved event is
  returned as a new value.
- `NomadEvents.SortByCreateTime`: the fixed tie order is one of the orders
  the SQL allows. Lemmas that rely on it, such as
  `NomadEventProperties.LatestIsFilteredHistory`, do not cover other tie
  orders.
