/**
  * The nomad_event table and the queries the event repository runs against it.
  * The table is a sequence of rows in insertion order; the SQL statements are
  * pure functions over that sequence, and the repository class mutates it.
  */
module NomadEvents {
  import opened Wrappers

  /** The identity the table assigns to a row (a UUID in the database). */
  type Uid = nat

  const U64Bound: int := 0x1_0000_0000_0000_0000
  /** The event index of the Nomad event stream, an unsigned 64-bit integer. */
  type U64 = i: int | 0 <= i < U64Bound

  /**
    * What the queries read of an event's payload under `Allocation`: its ID,
    * JobID and CreateTime (as the text the `#>>` operator yields) and the
    * allocation document itself (the text `->>` yields, decoded by the caller).
    */
  datatype AllocationFields = AllocationFields(id: string, jobId: string, createTime: string, document: string)

  /** A payload with or without an `Allocation` object. */
  datatype Payload = Payload(allocation: Option<AllocationFields>)

  /**
    * An event as the caller holds it. `filterKeys` may be absent (a nil
    * slice); `uid` and `handled` are written back by Save.
    */
  datatype NomadEvent = NomadEvent(uid: Uid, topic: string, eventType: string, key: string,
                                   filterKeys: Option<seq<string>>, index: U64, payload: Payload,
                                   handled: bool)

  /** A stored row: the filter keys column is never absent. */
  datatype EventRow = EventRow(uid: Uid, topic: string, eventType: string, key: string,
                               filterKeys: seq<string>, index: U64, payload: Payload,
                               handled: bool)

  /** The unique constraint on `uid`. */
  ghost predicate UniqueUids(t: seq<EventRow>) {
    forall i, j :: 0 <= i < |t| && 0 <= j < |t| && i != j ==> t[i].uid != t[j].uid
  }

  /** The first row carrying `uid`, if any. */
  function FindUid(t: seq<EventRow>, uid: Uid): (r: Option<nat>)
    ensures r.None? <==> forall k :: 0 <= k < |t| ==> t[k].uid != uid
    ensures r.Some? ==> r.value < |t| && t[r.value].uid == uid
    ensures r.Some? ==> forall k :: 0 <= k < r.value ==> t[k].uid != uid
  {
    if t == [] then None
    else if t[0].uid == uid then Some(0)
    else match FindUid(t[1..], uid)
      case None => None
      case Some(k) => Some(k + 1)
  }

  // ---------------------------------------------------------------------------
  // Save and Update.

  /** A nil filter key slice is stored as the empty list. */
  function NormalizeFilterKeys(keys: Option<seq<string>>): (r: seq<string>)
    ensures keys.None? ==> r == []
    ensures keys.Some? ==> r == keys.value
  {
    if keys.None? then [] else keys.value
  }

  /** The row an INSERT creates; `handled` takes the column's default, false. */
  function NewRow(e: NomadEvent, generated: Uid): EventRow {
    EventRow(generated, e.topic, e.eventType, e.key, NormalizeFilterKeys(e.filterKeys), e.index, e.payload, false)
  }

  datatype SaveResult = SaveResult(rows: seq<EventRow>, saved: NomadEvent)

  /**
    * The upsert of Save. `generated` is the uid the table generates for the new
    * row (the INSERT does not supply one). If a row already has that uid, no
    * row is added and only its topic is overwritten; otherwise the new row is
    * appended. Either way the event gets back the stored uid and handled flag.
    */
  function Upsert(t: seq<EventRow>, e: NomadEvent, generated: Uid): (r: SaveResult)
    ensures r.saved == e.(uid := generated, handled := r.saved.handled)
    ensures FindUid(t, generated).Some? ==>
              |r.rows| == |t| &&
              r.saved.handled == t[FindUid(t, generated).value].handled &&
              forall k :: 0 <= k < |t| ==>
                r.rows[k] == (if k == FindUid(t, generated).value then t[k].(topic := e.topic) else t[k])
    ensures FindUid(t, generated).None? ==>
              !r.saved.handled &&
              r.rows == t + [EventRow(generated, e.topic, e.eventType, e.key,
                                      if e.filterKeys.None? then [] else e.filterKeys.value,
                                      e.index, e.payload, false)]
    ensures UniqueUids(t) ==> UniqueUids(r.rows)
  {
    match FindUid(t, generated)
    case Some(k) =>
      SaveResult(t[k := t[k].(topic := e.topic)], e.(uid := generated, handled := t[k].handled))
    case None =>
      SaveResult(t + [NewRow(e, generated)], e.(uid := generated, handled := false))
  }

  /** The UPDATE of Update: every row with that uid gets the new flag. */
  function SetHandled(t: seq<EventRow>, uid: Uid, handled: bool): (r: seq<EventRow>)
    ensures |r| == |t|
    ensures forall k :: 0 <= k < |t| ==> r[k] == (if t[k].uid == uid then t[k].(handled := handled) else t[k])
  {
    if t == [] then []
    else [if t[0].uid == uid then t[0].(handled := handled) else t[0]] + SetHandled(t[1..], uid, handled)
  }

  // ---------------------------------------------------------------------------
  // Declarative queries.

  /** The rows satisfying `p`, in table order (a WHERE clause). */
  function Filter(p: EventRow -> bool, s: seq<EventRow>): (r: seq<EventRow>)
    ensures forall x :: multiset(r)[x] == (if p(x) then multiset(s)[x] else 0)
    ensures forall i :: 0 <= i < |r| ==> p(r[i])
  {
    if s == [] then []
    else
      var rest := Filter(p, s[1..]);
      assert s == [s[0]] + s[1..];
      if p(s[0]) then [s[0]] + rest else rest
  }

  /** GetByHandled: exactly the rows whose flag is `handled`. */
  function GetByHandled(t: seq<EventRow>, handled: bool): (r: seq<EventRow>)
    ensures forall x :: multiset(r)[x] == (if x.handled == handled then multiset(t)[x] else 0)
  {
    Filter((row: EventRow) => row.handled == handled, t)
  }

  /** GetLastNomadEventIndex: `COALESCE(MAX("index"), 0)`. */
  function GetLastNomadEventIndex(t: seq<EventRow>): (r: U64)
    ensures t == [] ==> r == 0
    ensures forall k :: 0 <= k < |t| ==> t[k].index <= r
    ensures t != [] ==> exists k :: 0 <= k < |t| && t[k].index == r
  {
    if t == [] then 0
    else
      var m := GetLastNomadEventIndex(t[1..]);
      assert forall k :: 1 <= k < |t| ==> t[k] == t[1..][k - 1];
      if t[0].index >= m then t[0].index else m
  }

  /** The allocation fields of a row that has them. */
  function AllocOf(row: EventRow): AllocationFields
    requires row.payload.allocation.Some?
  {
    row.payload.allocation.value
  }

  /** The WHERE clause of the allocation queries for job `id`. */
  predicate MatchesJob(row: EventRow, id: string) {
    row.topic == "Allocation" && row.eventType == "AllocationUpdated" &&
    row.payload.allocation.Some? && AllocOf(row).jobId == id
  }

  /**
    * The NOT EXISTS subquery of GetLatestEventAllocationByJobId: some other
    * row of job `id` (its own topic, type and JobID are the ones compared, as the
    * unqualified columns of the subquery refer to it) with the same
    * allocation ID has a strictly greater index.
    */
  predicate Superseded(t: seq<EventRow>, row: EventRow, id: string)
    requires row.payload.allocation.Some?
  {
    exists k :: 0 <= k < |t| && MatchesJob(t[k], id) && t[k].index > row.index &&
                AllocOf(t[k]).id == AllocOf(row).id
  }

  /** The rows the allocation query selects, before ordering. */
  predicate Selected(t: seq<EventRow>, id: string, latestOnly: bool, row: EventRow) {
    MatchesJob(row, id) && (!latestOnly || !Superseded(t, row, id))
  }

  /** The WHERE clause of the allocation query, as a predicate on rows. */
  function AllocationFilter(t: seq<EventRow>, id: string, latestOnly: bool): EventRow -> bool {
    (row: EventRow) => Selected(t, id, latestOnly, row)
  }

  /**
    * The sort key `create_time`. Only rows that carry an allocation are ever
    * sorted; the fallback for the others is never consulted.
    */
  function CreateTime(row: EventRow): string {
    if row.payload.allocation.Some? then AllocOf(row).createTime else []
  }

  /** Text comparison: lexicographic by code point, a prefix first. */
  predicate TextLe(a: string, b: string) {
    a == [] || (b != [] && (a[0] < b[0] || (a[0] == b[0] && TextLe(a[1..], b[1..]))))
  }

  predicate Sorted(s: seq<EventRow>) {
    forall i, j :: 0 <= i < j < |s| ==> TextLe(CreateTime(s[i]), CreateTime(s[j]))
  }

  /** Insert `x` before the first row it does not sort after. */
  function Insert(x: EventRow, s: seq<EventRow>): (r: seq<EventRow>)
    ensures multiset(r) == multiset(s) + multiset{x}
    ensures Sorted(s) ==> Sorted(r)
  {
    if s == [] then [x]
    else if TextLe(CreateTime(x), CreateTime(s[0])) then
      InsertFrontSorted(x, s);
      [x] + s
    else
      var r := [s[0]] + Insert(x, s[1..]);
      assert s == [s[0]] + s[1..];
      InsertBehindSorted(x, s, Insert(x, s[1..]));
      r
  }

  /** ORDER BY create_time ASC, as a stable insertion sort. */
  function SortByCreateTime(s: seq<EventRow>): (r: seq<EventRow>)
    ensures multiset(r) == multiset(s)
    ensures Sorted(r)
  {
    if s == [] then []
    else
      assert s == [s[0]] + s[1..];
      Insert(s[0], SortByCreateTime(s[1..]))
  }

  /**
    * The rows of the allocation query, in the order the query returns them:
    * the full history of job `id`, or only the rows no later row of the same
    * allocation supersedes.
    */
  function AllocationRows(t: seq<EventRow>, id: string, latestOnly: bool): (r: seq<EventRow>)
    ensures Sorted(r)
    ensures forall x :: multiset(r)[x] == (if Selected(t, id, latestOnly, x) then multiset(t)[x] else 0)
    ensures forall i :: 0 <= i < |r| ==> Selected(t, id, latestOnly, r[i])
  {
    var r := SortByCreateTime(Filter(AllocationFilter(t, id, latestOnly), t));
    assert forall i :: 0 <= i < |r| ==> Selected(t, id, latestOnly, r[i]) by {
      forall i | 0 <= i < |r| ensures Selected(t, id, latestOnly, r[i]) {
        assert r[i] in multiset(r);
      }
    }
    r
  }

  // ---------------------------------------------------------------------------
  // Lemmas the ordering needs.

  lemma {:induction false} TextLeTotal(a: string, b: string)
    ensures TextLe(a, b) || TextLe(b, a)
    decreases |a|
  {
    if a != [] && b != [] && a[0] == b[0] {
      TextLeTotal(a[1..], b[1..]);
    }
  }

  lemma {:induction false} TextLeTrans(a: string, b: string, c: string)
    requires TextLe(a, b) && TextLe(b, c)
    ensures TextLe(a, c)
    decreases |a|
  {
    if a != [] && a[0] == b[0] && b[0] == c[0] {
      TextLeTrans(a[1..], b[1..], c[1..]);
    }
  }

  /** `x` sorts no later than the head of a sorted `s`, so it sorts before all of it. */
  lemma InsertFrontSorted(x: EventRow, s: seq<EventRow>)
    requires s != [] && TextLe(CreateTime(x), CreateTime(s[0]))
    ensures Sorted(s) ==> Sorted([x] + s)
  {
    if Sorted(s) {
      forall j | 0 <= j < |s| ensures TextLe(CreateTime(x), CreateTime(s[j])) {
        if j > 0 {
          TextLeTrans(CreateTime(x), CreateTime(s[0]), CreateTime(s[j]));
        }
      }
    }
  }

  /** The head of `s` sorts before `x` and before every other row of `s`. */
  lemma InsertBehindSorted(x: EventRow, s: seq<EventRow>, tail: seq<EventRow>)
    requires s != [] && !TextLe(CreateTime(x), CreateTime(s[0]))
    requires multiset(tail) == multiset(s[1..]) + multiset{x}
    requires Sorted(s) ==> Sorted(tail)
    ensures Sorted(s) ==> Sorted([s[0]] + tail)
  {
    if Sorted(s) {
      TextLeTotal(CreateTime(x), CreateTime(s[0]));
      forall j | 0 <= j < |tail| ensures TextLe(CreateTime(s[0]), CreateTime(tail[j])) {
        assert tail[j] in multiset(tail);
        if tail[j] != x {
          assert tail[j] in multiset(s[1..]);
          var k :| 0 <= k < |s[1..]| && s[1..][k] == tail[j];
          assert s[k + 1] == tail[j];
        }
      }
    }
  }

  // ---------------------------------------------------------------------------
  // The repository.

  datatype NomadEventError = DecodeFailed

  /**
    * The decoded allocations `r` of the query rows `rs`: an error as soon as
    * one document fails to decode, else one allocation per row, in row order.
    */
  ghost predicate DecodesTo<A>(decode: string -> Option<A>, rs: seq<EventRow>, r: Result<seq<A>, NomadEventError>)
    requires forall i :: 0 <= i < |rs| ==> rs[i].payload.allocation.Some?
  {
    (r.Success? <==> forall i :: 0 <= i < |rs| ==> decode(AllocOf(rs[i]).document).Some?) &&
    (r.Success? ==> |r.value| == |rs| &&
                    forall i :: 0 <= i < |rs| ==> r.value[i] == decode(AllocOf(rs[i]).document).value) &&
    (r.Failure? ==> r.error == DecodeFailed)
  }

  /**
    * Decoding the allocation documents of the query rows into a result buffer
    * of the same length, giving up at the first document that fails.
    */
  method DecodeAll<A(0)>(rs: seq<EventRow>, decode: string -> Option<A>)
    returns (r: Result<seq<A>, NomadEventError>)
    requires forall i :: 0 <= i < |rs| ==> rs[i].payload.allocation.Some?
    ensures DecodesTo(decode, rs, r)
  {
    var results := new A[|rs|];
    for i := 0 to |rs|
      invariant forall k :: 0 <= k < i ==> decode(AllocOf(rs[k]).document).Some?
      invariant forall k :: 0 <= k < i ==> results[k] == decode(AllocOf(rs[k]).document).value
    {
      var d := decode(AllocOf(rs[i]).document);
      if d.None? {
        return Failure(DecodeFailed);
      }
      results[i] := d.value;
    }
    r := Success(results[..]);
  }

  /** The nomad_event table, mutated by Save and Update. */
  class NomadEventRepository {
    var rows: seq<EventRow>

    ghost predicate Valid()
      reads this
    {
      UniqueUids(rows)
    }

    constructor ()
      ensures rows == [] && Valid()
    {
      rows := [];
    }

    /** Save: upsert, writing the stored uid and handled flag back into the event. */
    method Save(event: NomadEvent, generated: Uid) returns (saved: NomadEvent)
      requires Valid()
      modifies this
      ensures Valid()
      ensures SaveResult(rows, saved) == Upsert(old(rows), event, generated)
    {
      var r := Upsert(rows, event, generated);
      rows, saved := r.rows, r.saved;
    }

    /** Update: set the handled flag of the row with the event's uid; no row, no change. */
    method Update(event: NomadEvent)
      requires Valid()
      modifies this
      ensures Valid()
      ensures rows == SetHandled(old(rows), event.uid, event.handled)
      ensures forall i, j :: 0 <= i < |rows| && 0 <= j < |rows| && i != j && rows[i] != old(rows)[i] ==>
                rows[j] == old(rows)[j]
    {
      rows := SetHandled(rows, event.uid, event.handled);
    }

    /**
      * getEventAllocationByJobId: run the allocation query, then decode its
      * rows.
      */
    method QueryAllocations<A(0)>(id: string, latestOnly: bool, decode: string -> Option<A>)
      returns (r: Result<seq<A>, NomadEventError>)
      ensures DecodesTo(decode, AllocationRows(rows, id, latestOnly), r)
    {
      var rs := AllocationRows(rows, id, latestOnly);
      r := DecodeAll(rs, decode);
    }

    /** GetEventAllocationByJobId: every allocation update of job `id`. */
    method GetEventAllocationByJobId<A(0)>(id: string, decode: string -> Option<A>)
      returns (r: Result<seq<A>, NomadEventError>)
      ensures DecodesTo(decode, AllocationRows(rows, id, false), r)
    {
      r := QueryAllocations(id, false, decode);
    }

    /** GetLatestEventAllocationByJobId: the latest update of each allocation of job `id`. */
    method GetLatestEventAllocationByJobId<A(0)>(id: string, decode: string -> Option<A>)
      returns (r: Result<seq<A>, NomadEventError>)
      ensures DecodesTo(decode, AllocationRows(rows, id, true), r)
    {
      r := QueryAllocations(id, true, decode);
    }
  }
}
