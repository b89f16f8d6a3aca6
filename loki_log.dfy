/**
  * Specification of the paginated log aggregation of the run service: how the
  * pages a Loki backend returns are classified into stdout and stderr, capped at
  * a total number of lines, and how the cursor of the next range query is chosen.
  * The imperative loop that follows this specification is
  * RunService.LokiQueryRange.
  */
module LokiLog {
  import opened Wrappers

  /** Overall cap on the number of lines one aggregation returns. */
  const LinesToFetch: nat := 10000
  /** Number of entries requested per backend call (Loki's default limit). */
  const Limit: nat := 5000

  /** One line of the aggregated output: nanosecond timestamp and text. */
  datatype LokiLine = LokiLine(time: int, text: string)

  /** The aggregated output: two ordered sequences of lines. */
  datatype LokiOutput = LokiOutput(stdout: seq<LokiLine>, stderr: seq<LokiLine>)

  /** One entry of a Loki stream. */
  datatype Entry = Entry(timestamp: int, line: string)

  /** A Loki stream: its label set and its entries in backend order. */
  datatype Stream = Stream(labels: map<string, string>, entries: seq<Entry>)

  /**
    * The label selector of a query: job-scoped (JobLogs) or scoped to one
    * allocation's task group (RunLogs). The rendering into LogQL text is not
    * modelled; the constructor records which labels the selector matches.
    */
  datatype Selector =
    | ByJob(nomadJobId: string)
    | ByAlloc(allocId: string, taskGroup: string)
  {
    /** The labels the rendered selector constrains, in the order it names them. */
    function LabelNames(): seq<string> {
      match this
      case ByJob(_) => ["nomad_job_id"]
      case ByAlloc(_, _) => ["nomad_alloc_id", "nomad_task_group"]
    }
  }

  /** One range query: selector, page limit, start cursor and end time (ns). */
  datatype Request = Request(query: Selector, limit: nat, start: int, end: int)

  /** The `data.result` part of a decoded response. */
  datatype QueryResult =
    | StreamsResult(streams: seq<Stream>)
    | OtherResult(resultType: string)

  /** A response body: either undecodable JSON or a decoded query result. */
  datatype Body = Undecodable | Decoded(result: QueryResult)

  /** What one backend call yields: a transport failure or a status and body. */
  datatype Response =
    | TransportFailure
    | HttpResponse(status: int, body: Body)

  datatype LokiError =
    | TransportError
    | StatusError(status: int)
    | JsonError
    | UnexpectedResultType(resultType: string)

  /** The complete observable result of one aggregation. */
  datatype Outcome = Outcome(output: LokiOutput, err: Option<LokiError>, requests: seq<Request>)

  const EmptyOutput: LokiOutput := LokiOutput([], [])

  function Total(o: LokiOutput): nat {
    |o.stdout| + |o.stderr|
  }

  /** A stream is classified as stderr iff its labels map `source` to "stderr". */
  predicate IsStderr(labels: map<string, string>) {
    "source" in labels && labels["source"] == "stderr"
  }

  function ToLine(e: Entry): LokiLine {
    LokiLine(e.timestamp, e.line)
  }

  /** The status check `StatusCode/100 != 2` (no status is negative). */
  predicate IsSuccessStatus(status: int) {
    200 <= status <= 299
  }

  /** The error one response causes, if any, in the order the code checks them. */
  function ResponseError(resp: Response): Option<LokiError> {
    match resp
    case TransportFailure => Some(TransportError)
    case HttpResponse(status, body) =>
      if !IsSuccessStatus(status) then Some(StatusError(status))
      else match body
        case Undecodable => Some(JsonError)
        case Decoded(OtherResult(t)) => Some(UnexpectedResultType(t))
        case Decoded(StreamsResult(_)) => None
  }

  /** The streams of a response, or none when the response is an error. */
  function StreamsOf(resp: Response): seq<Stream> {
    if ResponseError(resp).None? then resp.body.result.streams else []
  }

  // ---------------------------------------------------------------------------
  // Reference definition: classified lines and how they extend an output.

  /** A line together with the side (stderr or not) it is classified to. */
  datatype Tagged = Tagged(toStderr: bool, line: LokiLine)

  /** The entries of one stream, each tagged with the stream's side. */
  function TagEntries(toStderr: bool, es: seq<Entry>): (r: seq<Tagged>)
    ensures |r| == |es|
    ensures forall i :: 0 <= i < |es| ==> r[i] == Tagged(toStderr, ToLine(es[i]))
  {
    if es == [] then [] else [Tagged(toStderr, ToLine(es[0]))] + TagEntries(toStderr, es[1..])
  }

  /** All entries of a response, stream after stream, each tagged by its stream's labels. */
  function Flatten(ss: seq<Stream>): seq<Tagged> {
    if ss == [] then [] else TagEntries(IsStderr(ss[0].labels), ss[0].entries) + Flatten(ss[1..])
  }

  /** The lines tagged for stdout, in order. */
  function StdoutOf(ts: seq<Tagged>): seq<LokiLine> {
    if ts == [] then []
    else (if ts[0].toStderr then [] else [ts[0].line]) + StdoutOf(ts[1..])
  }

  /** The lines tagged for stderr, in order. */
  function StderrOf(ts: seq<Tagged>): seq<LokiLine> {
    if ts == [] then []
    else (if ts[0].toStderr then [ts[0].line] else []) + StderrOf(ts[1..])
  }

  /** The output `o` with the tagged lines `ts` appended, each to its own side. */
  function Extend(o: LokiOutput, ts: seq<Tagged>): LokiOutput {
    LokiOutput(o.stdout + StdoutOf(ts), o.stderr + StderrOf(ts))
  }

  /** The entries the backend delivered for a trace of requests, page after page. */
  function Delivered(backend: Request -> Response, reqs: seq<Request>): seq<Tagged> {
    if reqs == [] then [] else Flatten(StreamsOf(backend(reqs[0]))) + Delivered(backend, reqs[1..])
  }

  // ---------------------------------------------------------------------------
  // The aggregation, step by step.

  /** Appending one entry, to stderr or to stdout. */
  function Append(o: LokiOutput, toStderr: bool, e: Entry): LokiOutput {
    if toStderr then o.(stderr := o.stderr + [ToLine(e)]) else o.(stdout := o.stdout + [ToLine(e)])
  }

  datatype EntriesResult = Capped(out: LokiOutput) | Consumed(out: LokiOutput)

  /**
    * The inner loop over one stream's entries: append each entry and stop as
    * soon as the total reaches the cap.
    */
  function ConsumeEntries(o: LokiOutput, toStderr: bool, es: seq<Entry>): (r: EntriesResult)
    requires Total(o) < LinesToFetch
    ensures r.Capped? <==> |es| >= LinesToFetch - Total(o)
    ensures r.Capped? ==> Total(r.out) == LinesToFetch
    ensures r.Consumed? ==> Total(r.out) == Total(o) + |es| < LinesToFetch
    decreases |es|
  {
    if es == [] then Consumed(o)
    else
      var o' := Append(o, toStderr, es[0]);
      if Total(o') >= LinesToFetch then Capped(o') else ConsumeEntries(o', toStderr, es[1..])
  }

  /** Either the call is over, or another page is requested from `from`. */
  datatype PageResult = Finished(out: LokiOutput) | NextPage(out: LokiOutput, from: int)

  /**
    * The loop over the streams of one non-empty page: a full stream (at least
    * Limit entries) moves the cursor to its last entry, the first short stream
    * ends the call, and reaching the cap ends it at once.
    */
  function ConsumeStreams(o: LokiOutput, from: int, ss: seq<Stream>): (r: PageResult)
    requires Total(o) < LinesToFetch
    ensures Total(o) <= Total(r.out) <= LinesToFetch
    ensures r.NextPage? ==> Total(r.out) < LinesToFetch && Total(r.out) >= Total(o) + Limit * |ss|
    decreases |ss|
  {
    if ss == [] then NextPage(o, from)
    else
      var s := ss[0];
      match ConsumeEntries(o, IsStderr(s.labels), s.entries)
      case Capped(o') => Finished(o')
      case Consumed(o') =>
        if |s.entries| >= Limit then ConsumeStreams(o', s.entries[|s.entries| - 1].timestamp, ss[1..])
        else Finished(o')
  }

  /**
    * The outer loop, from output `o`, cursor `from` and the requests already
    * sent. Every iteration issues one request whose end is the clock reading of
    * that iteration; the result reports the output, the error (if any) and the
    * whole trace of requests.
    */
  function Paginate(query: Selector, backend: Request -> Response, clock: nat -> int,
                    o: LokiOutput, from: int, reqs: seq<Request>): (r: Outcome)
    requires Total(o) < LinesToFetch
    ensures Total(o) <= Total(r.output) <= LinesToFetch
    ensures |reqs| < |r.requests| <= |reqs| + 2 && r.requests[..|reqs|] == reqs
    ensures Total(o) >= Limit ==> |r.requests| == |reqs| + 1
    ensures r.requests[|reqs|] == Request(query, Limit, from, clock(|reqs|))
    ensures forall k :: |reqs| <= k < |r.requests| ==>
              r.requests[k].query == query && r.requests[k].limit == Limit && r.requests[k].end == clock(k)
    ensures r.err == ResponseError(backend(r.requests[|r.requests| - 1]))
    decreases LinesToFetch - Total(o)
  {
    var req := Request(query, Limit, from, clock(|reqs|));
    var sent := reqs + [req];
    var resp := backend(req);
    if ResponseError(resp).Some? then Outcome(o, ResponseError(resp), sent)
    else
      var ss := StreamsOf(resp);
      if ss == [] then Outcome(o, None, sent)
      else match ConsumeStreams(o, from, ss)
        case Finished(o') => Outcome(o', None, sent)
        case NextPage(o', from') => Paginate(query, backend, clock, o', from', sent)
  }

  /** The whole aggregation: empty output, cursor at the epoch, no request sent yet. */
  function QueryRange(query: Selector, backend: Request -> Response, clock: nat -> int): (r: Outcome)
    ensures Total(r.output) <= LinesToFetch
    ensures 1 <= |r.requests| <= 2
    ensures r.requests[0] == Request(query, Limit, 0, clock(0))
  {
    Paginate(query, backend, clock, EmptyOutput, 0, [])
  }
}
