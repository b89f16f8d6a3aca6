/**
  * Properties of the log aggregation specified in LokiLog: classification,
  * order, the total cap, the pagination cursor, early termination and the
  * behaviour on errors.
  */
module LokiLogProperties {
  import opened Wrappers
  import opened LokiLog

  // ---------------------------------------------------------------------------
  // The reference definition.

  lemma {:induction false} SplitConcat(a: seq<Tagged>, b: seq<Tagged>)
    ensures StdoutOf(a + b) == StdoutOf(a) + StdoutOf(b)
    ensures StderrOf(a + b) == StderrOf(a) + StderrOf(b)
  {
    if a == [] {
      assert a + b == b;
    } else {
      assert (a + b)[0] == a[0];
      assert (a + b)[1..] == a[1..] + b;
      SplitConcat(a[1..], b);
      var h := if a[0].toStderr then [] else [a[0].line];
      calc {
        StdoutOf(a + b);
        h + StdoutOf(a[1..] + b);
        h + (StdoutOf(a[1..]) + StdoutOf(b));
        (h + StdoutOf(a[1..])) + StdoutOf(b);
      }
      var g := if a[0].toStderr then [a[0].line] else [];
      calc {
        StderrOf(a + b);
        g + StderrOf(a[1..] + b);
        g + (StderrOf(a[1..]) + StderrOf(b));
        (g + StderrOf(a[1..])) + StderrOf(b);
      }
    }
  }

  /** Appending one entry is extending by its tagged line. */
  lemma AppendIsExtend(o: LokiOutput, toStderr: bool, e: Entry)
    ensures Append(o, toStderr, e) == Extend(o, [Tagged(toStderr, ToLine(e))])
  {
    var ts := [Tagged(toStderr, ToLine(e))];
    assert ts[1..] == [];
    assert StdoutOf(ts) == (if toStderr then [] else [ToLine(e)]) + StdoutOf([]);
    assert StderrOf(ts) == (if toStderr then [ToLine(e)] else []) + StderrOf([]);
  }

  /** Extending in two steps is extending by the concatenation. */
  lemma ExtendConcat(o: LokiOutput, a: seq<Tagged>, b: seq<Tagged>)
    ensures Extend(Extend(o, a), b) == Extend(o, a + b)
  {
    SplitConcat(a, b);
  }

  /** Lines all tagged for stderr go to stderr, in order, and none to stdout. */
  lemma {:induction false} AllStderr(ts: seq<Tagged>)
    requires forall i :: 0 <= i < |ts| ==> ts[i].toStderr
    ensures StdoutOf(ts) == [] && |StderrOf(ts)| == |ts|
    ensures forall i :: 0 <= i < |ts| ==> StderrOf(ts)[i] == ts[i].line
  {
    if ts != [] {
      AllStderr(ts[1..]);
      assert StderrOf(ts) == [ts[0].line] + StderrOf(ts[1..]);
    }
  }

  /** Lines all tagged for stdout go to stdout, in order, and none to stderr. */
  lemma {:induction false} AllStdout(ts: seq<Tagged>)
    requires forall i :: 0 <= i < |ts| ==> !ts[i].toStderr
    ensures StderrOf(ts) == [] && |StdoutOf(ts)| == |ts|
    ensures forall i :: 0 <= i < |ts| ==> StdoutOf(ts)[i] == ts[i].line
  {
    if ts != [] {
      AllStdout(ts[1..]);
      assert StdoutOf(ts) == [ts[0].line] + StdoutOf(ts[1..]);
    }
  }

  /**
    * Classification of one stream: all of its lines go, in entry order, to
    * stderr when its labels map `source` to "stderr" and to stdout otherwise;
    * the other side gets none.
    */
  lemma StreamClassification(labels: map<string, string>, es: seq<Entry>)
    ensures var ts := TagEntries(IsStderr(labels), es);
      var toStderr := "source" in labels && labels["source"] == "stderr";
      var side := if toStderr then StderrOf(ts) else StdoutOf(ts);
      (if toStderr then StdoutOf(ts) else StderrOf(ts)) == [] &&
      |side| == |es| && forall i :: 0 <= i < |es| ==> side[i] == LokiLine(es[i].timestamp, es[i].line)
  {
    var ts := TagEntries(IsStderr(labels), es);
    if IsStderr(labels) {
      AllStderr(ts);
    } else {
      AllStdout(ts);
    }
  }

  // ---------------------------------------------------------------------------
  // One stream, one page.

  /**
    * `out` is `o` extended by a prefix of `ts`, one tagged line per unit of
    * total.
    */
  predicate ExtendsByPrefix(o: LokiOutput, ts: seq<Tagged>, out: LokiOutput) {
    Total(o) <= Total(out) && Total(out) - Total(o) <= |ts| &&
    out == Extend(o, ts[..Total(out) - Total(o)])
  }

  /**
    * Consuming a stream appends a prefix of its tagged entries: the whole
    * stream, or as much as the cap allows.
    */
  lemma {:induction false} ConsumeEntriesAppends(o: LokiOutput, toStderr: bool, es: seq<Entry>)
    requires Total(o) < LinesToFetch
    ensures ExtendsByPrefix(o, TagEntries(toStderr, es), ConsumeEntries(o, toStderr, es).out)
    decreases |es|
  {
    if es == [] {
      assert TagEntries(toStderr, es)[..0] == [];
      assert Extend(o, []) == o;
    } else {
      var t := Tagged(toStderr, ToLine(es[0]));
      var o' := Append(o, toStderr, es[0]);
      AppendIsExtend(o, toStderr, es[0]);
      var ts := TagEntries(toStderr, es);
      assert ts == [t] + TagEntries(toStderr, es[1..]);
      if Total(o') >= LinesToFetch {
        assert ts[..1] == [t];
      } else {
        ConsumeEntriesAppends(o', toStderr, es[1..]);
        var r := ConsumeEntries(o', toStderr, es[1..]);
        var m := Total(r.out) - Total(o');
        ExtendConcat(o, [t], TagEntries(toStderr, es[1..])[..m]);
        assert ts[..m + 1] == [t] + TagEntries(toStderr, es[1..])[..m];
      }
    }
  }

  /**
    * Consuming a page appends a prefix of its entries, stream after stream,
    * each line classified by its stream's labels; a page that asks for more
    * has been consumed entirely.
    */
  lemma {:induction false} ConsumeStreamsAppends(o: LokiOutput, from: int, ss: seq<Stream>)
    requires Total(o) < LinesToFetch
    ensures ExtendsByPrefix(o, Flatten(ss), ConsumeStreams(o, from, ss).out)
    ensures ConsumeStreams(o, from, ss).NextPage? ==> Total(ConsumeStreams(o, from, ss).out) - Total(o) == |Flatten(ss)|
    decreases |ss|
  {
    if ss == [] {
      assert Flatten(ss)[..0] == [];
      assert Extend(o, []) == o;
    } else {
      var s := ss[0];
      ConsumeEntriesAppends(o, IsStderr(s.labels), s.entries);
      var c := ConsumeEntries(o, IsStderr(s.labels), s.entries);
      if c.Consumed? && |s.entries| >= Limit {
        var from' := s.entries[|s.entries| - 1].timestamp;
        ConsumeStreamsAppends(c.out, from', ss[1..]);
        FullStreamStep(o, from, ss);
      } else {
        ShortOrCappedStreamStep(o, from, ss);
      }
    }
  }

  lemma ShortOrCappedStreamStep(o: LokiOutput, from: int, ss: seq<Stream>)
    requires Total(o) < LinesToFetch && ss != []
    requires var c := ConsumeEntries(o, IsStderr(ss[0].labels), ss[0].entries);
      !(c.Consumed? && |ss[0].entries| >= Limit) &&
      ExtendsByPrefix(o, TagEntries(IsStderr(ss[0].labels), ss[0].entries), c.out)
    ensures ConsumeStreams(o, from, ss).Finished?
    ensures ExtendsByPrefix(o, Flatten(ss), ConsumeStreams(o, from, ss).out)
  {
    var s := ss[0];
    var a := TagEntries(IsStderr(s.labels), s.entries);
    assert Flatten(ss) == a + Flatten(ss[1..]);
    var c := ConsumeEntries(o, IsStderr(s.labels), s.entries);
    assert ConsumeStreams(o, from, ss) == Finished(c.out);
    PrefixOfConcatWithin(a, Flatten(ss[1..]), Total(c.out) - Total(o));
  }

  lemma FullStreamStep(o: LokiOutput, from: int, ss: seq<Stream>)
    requires Total(o) < LinesToFetch && ss != []
    requires var c := ConsumeEntries(o, IsStderr(ss[0].labels), ss[0].entries);
      c.Consumed? && |ss[0].entries| >= Limit &&
      ExtendsByPrefix(o, TagEntries(IsStderr(ss[0].labels), ss[0].entries), c.out) &&
      var r := ConsumeStreams(c.out, ss[0].entries[|ss[0].entries| - 1].timestamp, ss[1..]);
      ExtendsByPrefix(c.out, Flatten(ss[1..]), r.out) &&
      (r.NextPage? ==> Total(r.out) - Total(c.out) == |Flatten(ss[1..])|)
    ensures ExtendsByPrefix(o, Flatten(ss), ConsumeStreams(o, from, ss).out)
    ensures ConsumeStreams(o, from, ss).NextPage? ==> Total(ConsumeStreams(o, from, ss).out) - Total(o) == |Flatten(ss)|
  {
    var s := ss[0];
    var a := TagEntries(IsStderr(s.labels), s.entries);
    var rest := Flatten(ss[1..]);
    assert Flatten(ss) == a + rest;
    var c := ConsumeEntries(o, IsStderr(s.labels), s.entries);
    var r := ConsumeStreams(c.out, s.entries[|s.entries| - 1].timestamp, ss[1..]);
    assert ConsumeStreams(o, from, ss) == r;
    assert Total(c.out) - Total(o) == |a|;
    ExtendsByPrefixChain(o, a, c.out, rest, r.out);
  }

  lemma PrefixOfConcatWithin<T>(a: seq<T>, b: seq<T>, n: nat)
    requires n <= |a|
    ensures (a + b)[..n] == a[..n]
  {
  }

  lemma PrefixOfConcatBeyond<T>(a: seq<T>, b: seq<T>, m: nat)
    requires m <= |b|
    ensures (a + b)[..|a| + m] == a + b[..m]
  {
  }

  /**
    * Another page is asked for only when the page held a single stream of at
    * least Limit entries (two full streams would already reach the cap), and
    * the cursor of the next page is the timestamp of that stream's last entry.
    */
  lemma CursorIsLastEntry(o: LokiOutput, from: int, ss: seq<Stream>)
    requires Total(o) < LinesToFetch
    requires ss != []
    ensures var r := ConsumeStreams(o, from, ss);
      r.NextPage? ==>
        |ss| == 1 && |ss[0].entries| >= Limit &&
        r.from == ss[0].entries[|ss[0].entries| - 1].timestamp
  {
    var s := ss[0];
    var c := ConsumeEntries(o, IsStderr(s.labels), s.entries);
    if c.Consumed? && |s.entries| >= Limit {
      assert ConsumeStreams(o, from, ss) == ConsumeStreams(c.out, s.entries[|s.entries| - 1].timestamp, ss[1..]);
    }
  }

  /** The first short stream ends the page: streams after it are never read. */
  lemma {:induction false} LaterStreamsNotRead(o: LokiOutput, from: int, pre: seq<Stream>, s: Stream, post: seq<Stream>)
    requires Total(o) < LinesToFetch
    requires |s.entries| < Limit
    ensures ConsumeStreams(o, from, pre + [s] + post) == ConsumeStreams(o, from, pre + [s])
    ensures ConsumeStreams(o, from, pre + [s]).Finished?
    decreases |pre|
  {
    if pre == [] {
      assert ([s] + post)[1..] == post;
    } else {
      var h := pre[0];
      assert (pre + [s] + post)[0] == h && (pre + [s])[0] == h;
      assert (pre + [s] + post)[1..] == pre[1..] + [s] + post;
      assert (pre + [s])[1..] == pre[1..] + [s];
      var c := ConsumeEntries(o, IsStderr(h.labels), h.entries);
      if c.Consumed? && |h.entries| >= Limit {
        LaterStreamsNotRead(c.out, h.entries[|h.entries| - 1].timestamp, pre[1..], s, post);
      }
    }
  }

  // ---------------------------------------------------------------------------
  // The whole aggregation.

  lemma ExtendsByPrefixWiden(o: LokiOutput, a: seq<Tagged>, b: seq<Tagged>, out: LokiOutput)
    requires ExtendsByPrefix(o, a, out)
    ensures ExtendsByPrefix(o, a + b, out)
  {
    PrefixOfConcatWithin(a, b, Total(out) - Total(o));
  }

  lemma ExtendsByPrefixChain(o: LokiOutput, a: seq<Tagged>, mid: LokiOutput, b: seq<Tagged>, out: LokiOutput)
    requires ExtendsByPrefix(o, a, mid) && Total(mid) - Total(o) == |a|
    requires ExtendsByPrefix(mid, b, out)
    ensures ExtendsByPrefix(o, a + b, out)
  {
    var m := Total(out) - Total(mid);
    assert a[..|a|] == a;
    ExtendConcat(o, a, b[..m]);
    PrefixOfConcatBeyond(a, b, m);
  }

  lemma DeliveredFrom(backend: Request -> Response, rs: seq<Request>, k: nat)
    requires k < |rs|
    ensures Delivered(backend, rs[k..]) == Flatten(StreamsOf(backend(rs[k]))) + Delivered(backend, rs[k + 1..])
  {
    assert rs[k..][1..] == rs[k + 1..];
  }

  /** One unfolding of Paginate, case by case. */
  lemma PaginateStep(query: Selector, backend: Request -> Response, clock: nat -> int,
                     o: LokiOutput, from: int, reqs: seq<Request>)
    requires Total(o) < LinesToFetch
    ensures var r := Paginate(query, backend, clock, o, from, reqs);
      var req := Request(query, Limit, from, clock(|reqs|));
      var resp := backend(req);
      var p := ConsumeStreams(o, from, StreamsOf(resp));
      (ResponseError(resp).Some? || StreamsOf(resp) == [] ==> r.output == o) &&
      (ResponseError(resp).None? && StreamsOf(resp) != [] && p.Finished? ==> r.output == p.out) &&
      (ResponseError(resp).None? && StreamsOf(resp) != [] && p.NextPage? ==>
         r == Paginate(query, backend, clock, p.out, p.from, reqs + [req]))
  {
  }

  /** The outcome of one iteration that ends the call. */
  lemma PaginateEnds(query: Selector, backend: Request -> Response, clock: nat -> int,
                     o: LokiOutput, from: int, reqs: seq<Request>)
    requires Total(o) < LinesToFetch
    ensures var req := Request(query, Limit, from, clock(|reqs|));
      var resp := backend(req);
      var r := Paginate(query, backend, clock, o, from, reqs);
      (ResponseError(resp).Some? ==> r == Outcome(o, ResponseError(resp), reqs + [req])) &&
      (ResponseError(resp).None? && StreamsOf(resp) == [] ==> r == Outcome(o, None, reqs + [req])) &&
      (ResponseError(resp).None? && StreamsOf(resp) != [] && ConsumeStreams(o, from, StreamsOf(resp)).Finished? ==>
         r == Outcome(ConsumeStreams(o, from, StreamsOf(resp)).out, None, reqs + [req]))
  {
  }

  lemma ExtendsByNothing(o: LokiOutput, ts: seq<Tagged>)
    ensures ExtendsByPrefix(o, ts, o)
  {
    assert ts[..0] == [];
    assert Extend(o, []) == o;
  }

  lemma {:induction false} PaginateAppends(query: Selector, backend: Request -> Response, clock: nat -> int,
                                           o: LokiOutput, from: int, reqs: seq<Request>)
    requires Total(o) < LinesToFetch
    ensures var r := Paginate(query, backend, clock, o, from, reqs);
      ExtendsByPrefix(o, Delivered(backend, r.requests[|reqs|..]), r.output)
    decreases LinesToFetch - Total(o)
  {
    var r := Paginate(query, backend, clock, o, from, reqs);
    var req := Request(query, Limit, from, clock(|reqs|));
    var resp := backend(req);
    PaginateStep(query, backend, clock, o, from, reqs);
    DeliveredFrom(backend, r.requests, |reqs|);
    var page := Flatten(StreamsOf(resp));
    var rest := Delivered(backend, r.requests[|reqs| + 1..]);
    if ResponseError(resp).Some? || StreamsOf(resp) == [] {
      ExtendsByNothing(o, page + rest);
    } else {
      var ss := StreamsOf(resp);
      ConsumeStreamsAppends(o, from, ss);
      var p := ConsumeStreams(o, from, ss);
      if p.NextPage? {
        var next := Paginate(query, backend, clock, p.out, p.from, reqs + [req]);
        PaginateAppends(query, backend, clock, p.out, p.from, reqs + [req]);
        assert |reqs + [req]| == |reqs| + 1;
        ExtendsByPrefixChain(o, page, p.out, rest, next.output);
      } else {
        ExtendsByPrefixWiden(o, page, rest, p.out);
      }
    }
  }

  /**
    * What the aggregation returns, whether or not it fails, is the classified
    * prefix of everything the backend delivered, in delivery order: stream
    * after stream, entry after entry, each on the side its stream's labels say.
    * Nothing is dropped or reordered before the cap, and on an error the lines
    * of the earlier pages are returned with it.
    */
  lemma OutputIsClassifiedPrefix(query: Selector, backend: Request -> Response, clock: nat -> int)
    ensures var r := QueryRange(query, backend, clock);
      var d := Delivered(backend, r.requests);
      Total(r.output) <= |d| &&
      r.output.stdout == StdoutOf(d[..Total(r.output)]) &&
      r.output.stderr == StderrOf(d[..Total(r.output)])
  {
    PaginateAppends(query, backend, clock, EmptyOutput, 0, []);
    var r := QueryRange(query, backend, clock);
    assert r.requests[0..] == r.requests;
  }

  /** Zero streams on the first request: the empty output, no error, one request. */
  lemma EmptyFirstPage(query: Selector, backend: Request -> Response, clock: nat -> int, status: int)
    requires IsSuccessStatus(status)
    requires backend(Request(query, Limit, 0, clock(0))) == HttpResponse(status, Decoded(StreamsResult([])))
    ensures QueryRange(query, backend, clock) == Outcome(LokiOutput([], []), None, [Request(query, Limit, 0, clock(0))])
  {
  }

  /** A failing first request: the error, the empty output, one request. */
  lemma FirstRequestFails(query: Selector, backend: Request -> Response, clock: nat -> int)
    requires ResponseError(backend(Request(query, Limit, 0, clock(0)))).Some?
    ensures var r := QueryRange(query, backend, clock);
      r.err == ResponseError(backend(Request(query, Limit, 0, clock(0)))) && r.output == EmptyOutput && |r.requests| == 1
  {
  }

  /**
    * A second request is made exactly when the first page is a successful,
    * non-empty page that asks for more; such a page holds a single stream of at
    * least Limit entries, and the second request starts at the timestamp of
    * that stream's last entry and ends at the clock reading of the second
    * iteration.
    */
  lemma SecondRequestCursor(query: Selector, backend: Request -> Response, clock: nat -> int)
    ensures var r := QueryRange(query, backend, clock);
      var first := backend(r.requests[0]);
      var ss := StreamsOf(first);
      (|r.requests| == 2 <==> ResponseError(first).None? && ss != [] && ConsumeStreams(EmptyOutput, 0, ss).NextPage?) &&
      (|r.requests| == 2 ==>
         |ss| == 1 && |ss[0].entries| >= Limit &&
         r.requests[1] == Request(query, Limit, ss[0].entries[|ss[0].entries| - 1].timestamp, clock(1)))
  {
    var r := QueryRange(query, backend, clock);
    var ss := StreamsOf(backend(r.requests[0]));
    if ss != [] {
      CursorIsLastEntry(EmptyOutput, 0, ss);
    }
  }

  /**
    * A single full first stream under the cap (such as 5000 of 6000 lines) is
    * followed by exactly one more request, from its last entry's timestamp.
    */
  lemma FullFirstStreamPages(query: Selector, backend: Request -> Response, clock: nat -> int, status: int, s: Stream)
    requires IsSuccessStatus(status)
    requires Limit <= |s.entries| < LinesToFetch
    requires backend(Request(query, Limit, 0, clock(0))) == HttpResponse(status, Decoded(StreamsResult([s])))
    ensures var r := QueryRange(query, backend, clock);
      |r.requests| == 2 && r.requests[1] == Request(query, Limit, s.entries[|s.entries| - 1].timestamp, clock(1))
  {
    SecondRequestCursor(query, backend, clock);
  }

  /** A page that succeeds and holds only full streams, at least one. */
  predicate FullPage(resp: Response) {
    ResponseError(resp).None? && StreamsOf(resp) != [] &&
    forall i :: 0 <= i < |StreamsOf(resp)| ==> |StreamsOf(resp)[i].entries| >= Limit
  }

  lemma {:induction false} FullStreamsEndOnlyAtCap(o: LokiOutput, from: int, ss: seq<Stream>)
    requires Total(o) < LinesToFetch
    requires forall i :: 0 <= i < |ss| ==> |ss[i].entries| >= Limit
    ensures var r := ConsumeStreams(o, from, ss); r.Finished? ==> Total(r.out) == LinesToFetch
    decreases |ss|
  {
    if ss != [] {
      var s := ss[0];
      var c := ConsumeEntries(o, IsStderr(s.labels), s.entries);
      if c.Consumed? {
        forall i | 0 <= i < |ss[1..]| ensures |ss[1..][i].entries| >= Limit {
          assert ss[1..][i] == ss[i + 1];
        }
        FullStreamsEndOnlyAtCap(c.out, s.entries[|s.entries| - 1].timestamp, ss[1..]);
      }
    }
  }

  /**
    * A backend that always answers with full pages (for instance one holding
    * 15000 lines) yields exactly the cap of lines and no error.
    */
  lemma AlwaysFullPagesReachCap(query: Selector, backend: Request -> Response, clock: nat -> int)
    requires forall req :: FullPage(backend(req))
    ensures var r := QueryRange(query, backend, clock);
      Total(r.output) == LinesToFetch && r.err == None
  {
    var req0 := Request(query, Limit, 0, clock(0));
    var ss := StreamsOf(backend(req0));
    assert FullPage(backend(req0));
    FullStreamsEndOnlyAtCap(EmptyOutput, 0, ss);
    var p := ConsumeStreams(EmptyOutput, 0, ss);
    if p.NextPage? {
      var req1 := Request(query, Limit, p.from, clock(1));
      assert FullPage(backend(req1));
      FullStreamsEndOnlyAtCap(p.out, p.from, StreamsOf(backend(req1)));
    }
  }
}
