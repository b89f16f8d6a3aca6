/**
  * The run service: the paginating log aggregation loop, the selectors of
  * JobLogs and RunLogs, and the Run lifecycle step sequences (Save, Update,
  * End, Cancel) over an in-memory store of runs and run outputs.
  */
module RunService {
  import opened Wrappers
  import opened LokiLog

  // ---------------------------------------------------------------------------
  // Log aggregation.

  /**
    * The aggregation loop. `backend` answers one range query per iteration and
    * `clock` gives the wall-clock reading (ns) of each iteration. Besides the
    * output and the error, the method reports the requests it sent, in order.
    */
  method LokiQueryRange(query: Selector, backend: Request -> Response, clock: nat -> int)
    returns (output: LokiOutput, err: Option<LokiError>, requests: seq<Request>)
    ensures Outcome(output, err, requests) == QueryRange(query, backend, clock)
  {
    var from := 0;
    output := LokiOutput([], []);
    requests := [];
    while true
      invariant Total(output) < LinesToFetch
      invariant Paginate(query, backend, clock, output, from, requests) == QueryRange(query, backend, clock)
      decreases LinesToFetch - Total(output)
    {
      ghost var pageStart, fromStart, sentBefore := output, from, requests;
      var req := Request(query, Limit, from, clock(|requests|));
      requests := requests + [req];
      var resp := backend(req);
      if resp.TransportFailure? {
        err := Some(TransportError);
        return;
      }
      if !(200 <= resp.status <= 299) {
        err := Some(StatusError(resp.status));
        return;
      }
      if resp.body.Undecodable? {
        err := Some(JsonError);
        return;
      }
      if resp.body.result.OtherResult? {
        err := Some(UnexpectedResultType(resp.body.result.resultType));
        return;
      }
      var streams := resp.body.result.streams;
      assert streams == StreamsOf(resp);
      if |streams| == 0 {
        err := None;
        return;
      }
      var done;
      output, from, done := AppendPage(output, from, streams);
      if done {
        err := None;
        return;
      }
    }
  }

  /**
    * The loop over the streams of one non-empty page: `done` says the call
    * ends with this page, otherwise `from'` is the cursor of the next page.
    */
  method AppendPage(output: LokiOutput, from: int, streams: seq<Stream>)
    returns (out: LokiOutput, from': int, done: bool)
    requires Total(output) < LinesToFetch
    ensures (if done then Finished(out) else NextPage(out, from')) == ConsumeStreams(output, from, streams)
  {
    out, from' := output, from;
    var i := 0;
    while i < |streams|
      invariant 0 <= i <= |streams|
      invariant Total(out) < LinesToFetch
      invariant ConsumeStreams(out, from', streams[i..]) == ConsumeStreams(output, from, streams)
    {
      var stream := streams[i];
      assert streams[i..][1..] == streams[i + 1..];
      var toStderr := "source" in stream.labels && stream.labels["source"] == "stderr";
      var capped;
      out, capped := AppendStream(out, toStderr, stream.entries);
      if capped {
        done := true;
        return;
      }
      if |stream.entries| >= Limit {
        from' := stream.entries[|stream.entries| - 1].timestamp;
      } else {
        done := true;
        return;
      }
      i := i + 1;
    }
    assert streams[i..] == [];
    done := false;
  }

  /**
    * The loop over the entries of one stream: each goes to stderr or stdout,
    * and `capped` says the total reached the cap after the last one appended.
    */
  method AppendStream(output: LokiOutput, toStderr: bool, entries: seq<Entry>)
    returns (out: LokiOutput, capped: bool)
    requires Total(output) < LinesToFetch
    ensures (if capped then Capped(out) else Consumed(out)) == ConsumeEntries(output, toStderr, entries)
  {
    out := output;
    var j := 0;
    while j < |entries|
      invariant 0 <= j <= |entries|
      invariant Total(out) < LinesToFetch
      invariant ConsumeEntries(out, toStderr, entries[j..]) == ConsumeEntries(output, toStderr, entries)
    {
      var entry := entries[j];
      assert entries[j..][1..] == entries[j + 1..];
      if toStderr {
        out := out.(stderr := out.stderr + [LokiLine(entry.timestamp, entry.line)]);
      } else {
        out := out.(stdout := out.stdout + [LokiLine(entry.timestamp, entry.line)]);
      }
      if |out.stdout| + |out.stderr| >= LinesToFetch {
        capped := true;
        return;
      }
      j := j + 1;
    }
    assert entries[j..] == [];
    capped := false;
  }

  /** The logs of a whole job: every request carries the job-scoped selector. */
  method JobLogs(nomadJobId: string, backend: Request -> Response, clock: nat -> int)
    returns (output: LokiOutput, err: Option<LokiError>, requests: seq<Request>)
    ensures Outcome(output, err, requests) == QueryRange(ByJob(nomadJobId), backend, clock)
    ensures forall k :: 0 <= k < |requests| ==>
              requests[k].query == ByJob(nomadJobId) && requests[k].query.LabelNames() == ["nomad_job_id"]
  {
    output, err, requests := LokiQueryRange(ByJob(nomadJobId), backend, clock);
  }

  /** The logs of one task group of one allocation. */
  method RunLogs(allocId: string, taskGroup: string, backend: Request -> Response, clock: nat -> int)
    returns (output: LokiOutput, err: Option<LokiError>, requests: seq<Request>)
    ensures Outcome(output, err, requests) == QueryRange(ByAlloc(allocId, taskGroup), backend, clock)
    ensures forall k :: 0 <= k < |requests| ==>
              requests[k].query == ByAlloc(allocId, taskGroup) &&
              requests[k].query.LabelNames() == ["nomad_alloc_id", "nomad_task_group"]
  {
    output, err, requests := LokiQueryRange(ByAlloc(allocId, taskGroup), backend, clock);
  }

  // ---------------------------------------------------------------------------
  // Run lifecycle.

  type JobId = string

  /**
    * A Run row, keyed by its Nomad job id. Its other columns are written as a
    * whole by the run repository and are represented by one opaque value.
    */
  datatype Run = Run(nomadJobId: JobId, details: string)

  /** The terminal output of a Run: an opaque payload. */
  datatype RunOutput = RunOutput(payload: string)

  datatype RunError =
    | NotFound(id: JobId)
    | InsertRunFailed
    | InsertOutputFailed
    | UpdateRunFailed(id: JobId)
    | DeleteOutputFailed(id: JobId)
    | DeregisterFailed(id: JobId)
    | BeginFailed
    | CommitFailed

  /**
    * The tables the run service writes: runs and run outputs, both keyed by
    * the Nomad job id. Each repository statement either succeeds, as `ok`
    * says, or fails and changes nothing; what makes it fail (a constraint, the
    * connection) is outside this model.
    */
  class RunStore {
    var runs: map<JobId, Run>
    var outputs: map<JobId, RunOutput>

    constructor ()
      ensures runs == map[] && outputs == map[]
    {
      runs, outputs := map[], map[];
    }

    /** GetByNomadJobId: the run with that id, or NotFound. */
    function GetByNomadJobId(id: JobId): (r: Result<Run, RunError>)
      reads this
      ensures r.Success? <==> id in runs
      ensures r.Success? ==> r.value == runs[id]
      ensures r.Failure? ==> r.error == NotFound(id)
    {
      if id in runs then Success(runs[id]) else Failure(NotFound(id))
    }

    /** GetOutputByNomadJobId: the output of that run, or NotFound. */
    function GetOutputByNomadJobId(id: JobId): (r: Result<RunOutput, RunError>)
      reads this
      ensures r.Success? <==> id in outputs
      ensures r.Success? ==> r.value == outputs[id]
      ensures r.Failure? ==> r.error == NotFound(id)
    {
      if id in outputs then Success(outputs[id]) else Failure(NotFound(id))
    }

    /** Insert of a run row. */
    method SaveRun(run: Run, ok: bool) returns (err: Option<RunError>)
      modifies this
      ensures err == (if ok then None else Some(InsertRunFailed))
      ensures runs == (if ok then old(runs)[run.nomadJobId := run] else old(runs))
      ensures outputs == old(outputs)
    {
      if ok {
        runs := runs[run.nomadJobId := run];
        err := None;
      } else {
        err := Some(InsertRunFailed);
      }
    }

    /** Update of a run row: an UPDATE that finds no row changes nothing. */
    method UpdateRun(run: Run, ok: bool) returns (err: Option<RunError>)
      modifies this
      ensures err == (if ok then None else Some(UpdateRunFailed(run.nomadJobId)))
      ensures runs == (if ok && run.nomadJobId in old(runs) then old(runs)[run.nomadJobId := run] else old(runs))
      ensures outputs == old(outputs)
    {
      if ok {
        if run.nomadJobId in runs {
          runs := runs[run.nomadJobId := run];
        }
        err := None;
      } else {
        err := Some(UpdateRunFailed(run.nomadJobId));
      }
    }

    /** Insert of a run's output row. */
    method SaveOutput(id: JobId, output: RunOutput, ok: bool) returns (err: Option<RunError>)
      modifies this
      ensures err == (if ok then None else Some(InsertOutputFailed))
      ensures outputs == (if ok then old(outputs)[id := output] else old(outputs))
      ensures runs == old(runs)
    {
      if ok {
        outputs := outputs[id := output];
        err := None;
      } else {
        err := Some(InsertOutputFailed);
      }
    }

    /** Delete of a run's output row; deleting an absent row is no error. */
    method DeleteOutput(id: JobId, ok: bool) returns (err: Option<RunError>)
      modifies this
      ensures err == (if ok then None else Some(DeleteOutputFailed(id)))
      ensures outputs == (if ok then old(outputs) - {id} else old(outputs))
      ensures runs == old(runs)
    {
      if ok {
        outputs := outputs - {id};
        err := None;
      } else {
        err := Some(DeleteOutputFailed(id));
      }
    }

    /** Rolling a transaction back: the tables return to a snapshot. */
    method Restore(savedRuns: map<JobId, Run>, savedOutputs: map<JobId, RunOutput>)
      modifies this
      ensures runs == savedRuns && outputs == savedOutputs
    {
      runs, outputs := savedRuns, savedOutputs;
    }
  }

  /** A deregistration request as the Nomad client receives it. */
  datatype Deregistration = Deregistration(jobId: JobId, purge: bool)

  /**
    * The Nomad client, reduced to the requests it has received; whether a
    * request succeeds is decided by the caller's `ok` argument.
    */
  class NomadClient {
    var deregistrations: seq<Deregistration>

    constructor ()
      ensures deregistrations == []
    {
      deregistrations := [];
    }

    method JobsDeregister(jobId: JobId, purge: bool, ok: bool) returns (err: Option<RunError>)
      modifies this
      ensures deregistrations == old(deregistrations) + [Deregistration(jobId, purge)]
      ensures err == (if ok then None else Some(DeregisterFailed(jobId)))
    {
      deregistrations := deregistrations + [Deregistration(jobId, purge)];
      err := if ok then None else Some(DeregisterFailed(jobId));
    }
  }

  /**
    * The Run lifecycle operations. Save, Update and End run inside a
    * transaction their caller owns: a failing step returns its error at once,
    * and undoing the earlier steps is left to that caller. Cancel opens its own
    * transaction, which commits only when both of its steps and the commit
    * succeed, and is restored to its starting state otherwise.
    */
  class Lifecycle {
    const store: RunStore
    const nomad: NomadClient

    constructor (store: RunStore, nomad: NomadClient)
      ensures this.store == store && this.nomad == nomad
    {
      this.store := store;
      this.nomad := nomad;
    }

    /** Save: insert the run, then its output; the output is skipped if the run fails. */
    method Save(run: Run, output: RunOutput, runOk: bool, outputOk: bool) returns (err: Option<RunError>)
      modifies store
      ensures !runOk ==> err == Some(InsertRunFailed)
      ensures runOk && !outputOk ==> err == Some(InsertOutputFailed)
      ensures runOk && outputOk ==> err == None
      ensures store.runs == (if runOk then old(store.runs)[run.nomadJobId := run] else old(store.runs))
      ensures store.outputs == (if runOk && outputOk then old(store.outputs)[run.nomadJobId := output] else old(store.outputs))
      ensures runOk && outputOk ==>
                store.GetByNomadJobId(run.nomadJobId) == Success(run) &&
                store.GetOutputByNomadJobId(run.nomadJobId) == Success(output)
    {
      err := store.SaveRun(run, runOk);
      if err.Some? {
        return;
      }
      err := store.SaveOutput(run.nomadJobId, output, outputOk);
    }

    /** Update: write the run's row; the outputs are untouched. */
    method Update(run: Run, ok: bool) returns (err: Option<RunError>)
      modifies store
      ensures err == (if ok then None else Some(UpdateRunFailed(run.nomadJobId)))
      ensures store.runs == (if ok && run.nomadJobId in old(store.runs) then old(store.runs)[run.nomadJobId := run] else old(store.runs))
      ensures store.outputs == old(store.outputs)
      ensures ok && old(store.GetByNomadJobId(run.nomadJobId)).Success? ==>
                store.GetByNomadJobId(run.nomadJobId) == Success(run)
      ensures !ok ==> store.GetByNomadJobId(run.nomadJobId) == old(store.GetByNomadJobId(run.nomadJobId))
    {
      err := store.UpdateRun(run, ok);
    }

    /** End: update the run, then delete its output; the delete is skipped if the update fails. */
    method End(run: Run, updateOk: bool, deleteOk: bool) returns (err: Option<RunError>)
      modifies store
      ensures !updateOk ==> err == Some(UpdateRunFailed(run.nomadJobId))
      ensures updateOk && !deleteOk ==> err == Some(DeleteOutputFailed(run.nomadJobId))
      ensures updateOk && deleteOk ==> err == None
      ensures store.runs == (if updateOk && run.nomadJobId in old(store.runs) then old(store.runs)[run.nomadJobId := run] else old(store.runs))
      ensures store.outputs == (if updateOk && deleteOk then old(store.outputs) - {run.nomadJobId} else old(store.outputs))
      ensures updateOk && old(store.GetByNomadJobId(run.nomadJobId)).Success? ==>
                store.GetByNomadJobId(run.nomadJobId) == Success(run)
      ensures err.None? ==> store.GetOutputByNomadJobId(run.nomadJobId) == Failure(NotFound(run.nomadJobId))
    {
      err := store.UpdateRun(run, updateOk);
      if err.Some? {
        return;
      }
      err := store.DeleteOutput(run.nomadJobId, deleteOk);
    }

    /**
      * Cancel: in one transaction, delete the run's output and then ask Nomad
      * to deregister the job without purging it. When the transaction cannot
      * be begun, nothing is done. Deregistration is not asked for when the
      * delete fails; on any failure, the commit's included, the tables are as
      * they were before the call.
      */
    method Cancel(run: Run, beginOk: bool, deleteOk: bool, deregisterOk: bool, commitOk: bool)
      returns (err: Option<RunError>)
      modifies store, nomad
      ensures nomad.deregistrations ==
        old(nomad.deregistrations) + (if beginOk && deleteOk then [Deregistration(run.nomadJobId, false)] else [])
      ensures !beginOk ==> err == Some(BeginFailed)
      ensures beginOk && !deleteOk ==> err == Some(DeleteOutputFailed(run.nomadJobId))
      ensures beginOk && deleteOk && !deregisterOk ==> err == Some(DeregisterFailed(run.nomadJobId))
      ensures beginOk && deleteOk && deregisterOk && !commitOk ==> err == Some(CommitFailed)
      ensures beginOk && deleteOk && deregisterOk && commitOk ==> err == None
      ensures store.runs == old(store.runs)
      ensures store.outputs == (if err.None? then old(store.outputs) - {run.nomadJobId} else old(store.outputs))
      ensures err.Some? ==>
                store.GetOutputByNomadJobId(run.nomadJobId) == old(store.GetOutputByNomadJobId(run.nomadJobId))
      ensures err.None? ==> store.GetOutputByNomadJobId(run.nomadJobId) == Failure(NotFound(run.nomadJobId))
    {
      if !beginOk {
        return Some(BeginFailed);
      }
      // BeginFunc: take a snapshot, run the steps, commit or restore.
      var savedRuns, savedOutputs := store.runs, store.outputs;
      err := store.DeleteOutput(run.nomadJobId, deleteOk);
      if err.None? {
        err := nomad.JobsDeregister(run.nomadJobId, false, deregisterOk);
      }
      if err.None? && !commitOk {
        err := Some(CommitFailed);
      }
      if err.Some? {
        store.Restore(savedRuns, savedOutputs);
      }
    }
  }
}
