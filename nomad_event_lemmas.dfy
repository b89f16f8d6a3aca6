/**
  * Properties of the nomad_event model: the upsert is idempotent and always
  * reports the stored flag, Update touches one flag of one row, and the
  * "latest" allocation query is the full history with superseded rows removed,
  * keeping exactly the newest row of every allocation.
  */
module NomadEventProperties {
  import opened Wrappers
  import opened NomadEvents

  // ---------------------------------------------------------------------------
  // Save and Update.

  /** Rewriting a row without changing its uid does not move the first match of a uid. */
  lemma {:induction false} FindUidAfterRewrite(t: seq<EventRow>, j: nat, row: EventRow, uid: Uid)
    requires j < |t| && row.uid == t[j].uid
    ensures FindUid(t[j := row], uid) == FindUid(t, uid)
    decreases |t|
  {
    if j > 0 {
      assert t[j := row][1..] == t[1..][j - 1 := row];
      FindUidAfterRewrite(t[1..], j - 1, row, uid);
    }
  }

  /** A uid no row had is first matched by the appended row. */
  lemma {:induction false} FindUidAfterAppend(t: seq<EventRow>, row: EventRow)
    requires FindUid(t, row.uid).None?
    ensures FindUid(t + [row], row.uid) == Some(|t|)
    decreases |t|
  {
    if t != [] {
      assert (t + [row])[1..] == t[1..] + [row];
      FindUidAfterAppend(t[1..], row);
    }
  }

  /** Replaying a Save with the same generated uid adds no row and returns the same event. */
  lemma SaveIdempotent(t: seq<EventRow>, e: NomadEvent, generated: Uid)
    ensures Upsert(Upsert(t, e, generated).rows, e, generated) == Upsert(t, e, generated)
  {
    var first := Upsert(t, e, generated);
    match FindUid(t, generated)
    case Some(j) =>
      FindUidAfterRewrite(t, j, t[j].(topic := e.topic), generated);
      assert first.rows[j := first.rows[j].(topic := e.topic)] == first.rows;
    case None =>
      FindUidAfterAppend(t, NewRow(e, generated));
      assert first.rows[|t| := first.rows[|t|].(topic := e.topic)] == first.rows;
  }

  /** Save after Update reports the flag Update stored, not the one of the first Save. */
  lemma SaveReportsStoredHandled(t: seq<EventRow>, e: NomadEvent, generated: Uid, handled: bool)
    ensures var rows := SetHandled(Upsert(t, e, generated).rows, generated, handled);
            Upsert(rows, e, generated).saved.handled == handled && |Upsert(rows, e, generated).rows| == |rows|
  {
    var first := Upsert(t, e, generated);
    var rows := SetHandled(first.rows, generated, handled);
    var j := if FindUid(t, generated).Some? then FindUid(t, generated).value else |t|;
    assert first.rows[j].uid == generated;
    assert rows[j] == first.rows[j].(handled := handled);
    var k := FindUid(rows, generated);
    assert k.Some?;
    assert rows[k.value].uid == generated;
    assert rows[k.value].handled == handled;
  }

  /** Update of a uid no row carries changes nothing. */
  lemma UpdateNoMatchUnchanged(t: seq<EventRow>, uid: Uid, handled: bool)
    requires forall k :: 0 <= k < |t| ==> t[k].uid != uid
    ensures SetHandled(t, uid, handled) == t
  {
  }

  /** With unique uids, Update changes at most one row. */
  lemma UpdateChangesAtMostOneRow(t: seq<EventRow>, uid: Uid, handled: bool)
    requires UniqueUids(t)
    ensures var u := SetHandled(t, uid, handled);
            forall i, j :: 0 <= i < |t| && 0 <= j < |t| && i != j && u[i] != t[i] ==> u[j] == t[j]
  {
  }

  /** With unique uids, the row a conflicting Save touches is the only row carrying the uid. */
  lemma ConflictRowIsUnique(t: seq<EventRow>, generated: Uid)
    requires UniqueUids(t) && FindUid(t, generated).Some?
    ensures forall k :: 0 <= k < |t| && t[k].uid == generated ==> k == FindUid(t, generated).value
  {
  }

  /** Update keeps the uids unique: it changes no uid. */
  lemma UpdateKeepsUids(t: seq<EventRow>, uid: Uid, handled: bool)
    ensures UniqueUids(t) ==> UniqueUids(SetHandled(t, uid, handled))
  {
  }

  /** After Update(uid, h), the row with that uid is among GetByHandled(h). */
  lemma UpdatedRowListed(t: seq<EventRow>, uid: Uid, handled: bool)
    requires FindUid(t, uid).Some?
    ensures var u := SetHandled(t, uid, handled);
            u[FindUid(t, uid).value] in GetByHandled(u, handled)
  {
    var u := SetHandled(t, uid, handled);
    var x := u[FindUid(t, uid).value];
    assert x in multiset(u);
    assert multiset(GetByHandled(u, handled))[x] == multiset(u)[x];
  }

  /** After Update(uid, h), no row with that uid is among GetByHandled(!h). */
  lemma NoStaleRowListed(t: seq<EventRow>, uid: Uid, handled: bool)
    ensures var u := SetHandled(t, uid, handled);
            forall x :: x in GetByHandled(u, !handled) ==> x.uid != uid
  {
    var u := SetHandled(t, uid, handled);
    var others := GetByHandled(u, !handled);
    forall x | x in others ensures x.uid != uid {
      var i :| 0 <= i < |others| && others[i] == x;
      FilterMember((row: EventRow) => row.handled == !handled, u, x);
      var m :| 0 <= m < |u| && u[m] == x;
    }
  }

  /** GetByHandled(true) and GetByHandled(false) split the table. */
  lemma GetByHandledPartition(t: seq<EventRow>)
    ensures multiset(GetByHandled(t, true)) + multiset(GetByHandled(t, false)) == multiset(t)
  {
    var a, b := GetByHandled(t, true), GetByHandled(t, false);
    assert forall x :: (multiset(a) + multiset(b))[x] == multiset(t)[x];
  }

  /** The resume cursor over indices 3, 1, 7 and 2 is 7; over no rows it is 0. */
  lemma ResumeCursorExample(r1: EventRow, r2: EventRow, r3: EventRow, r4: EventRow)
    requires r1.index == 3 && r2.index == 1 && r3.index == 7 && r4.index == 2
    ensures GetLastNomadEventIndex([r1, r2, r3, r4]) == 7
    ensures GetLastNomadEventIndex([]) == 0
  {
    assert [r1, r2, r3, r4][1..] == [r2, r3, r4];
    assert [r2, r3, r4][1..] == [r3, r4];
    assert [r3, r4][1..] == [r4];
    assert GetLastNomadEventIndex([r4]) == 2;
    assert GetLastNomadEventIndex([r3, r4]) == 7;
    assert GetLastNomadEventIndex([r2, r3, r4]) == 7;
  }

  // ---------------------------------------------------------------------------
  // Filtering commutes with the stable sort.

  lemma {:induction false} FilterConjunction(p: EventRow -> bool, q: EventRow -> bool, s: seq<EventRow>)
    requires forall x :: q(x) ==> p(x)
    ensures Filter(q, s) == Filter(q, Filter(p, s))
    decreases |s|
  {
    if s != [] {
      FilterConjunction(p, q, s[1..]);
    }
  }

  /** Every row of a filtered sequence comes from the sequence. */
  lemma FilterMember(q: EventRow -> bool, s: seq<EventRow>, y: EventRow)
    requires y in Filter(q, s)
    ensures y in s
  {
    assert y in multiset(Filter(q, s));
  }

  lemma {:induction false} FilterInsert(q: EventRow -> bool, x: EventRow, s: seq<EventRow>)
    requires Sorted(s)
    ensures Filter(q, Insert(x, s)) == if q(x) then Insert(x, Filter(q, s)) else Filter(q, s)
    decreases |s|
  {
    if s == [] {
    } else if TextLe(CreateTime(x), CreateTime(s[0])) {
      assert Insert(x, s) == [x] + s;
      assert ([x] + s)[1..] == s;
      var f := Filter(q, s);
      if q(x) && f != [] {
        FilterMember(q, s, f[0]);
        var k :| 0 <= k < |s| && s[k] == f[0];
        if k > 0 {
          TextLeTrans(CreateTime(x), CreateTime(s[0]), CreateTime(s[k]));
        }
      }
    } else {
      assert Insert(x, s) == [s[0]] + Insert(x, s[1..]);
      assert ([s[0]] + Insert(x, s[1..]))[1..] == Insert(x, s[1..]);
      assert Sorted(s[1..]) by {
        forall i, j | 0 <= i < j < |s[1..]| ensures TextLe(CreateTime(s[1..][i]), CreateTime(s[1..][j])) {
          assert s[1..][i] == s[i + 1] && s[1..][j] == s[j + 1];
        }
      }
      FilterInsert(q, x, s[1..]);
      if q(s[0]) {
        assert Filter(q, s) == [s[0]] + Filter(q, s[1..]);
      } else {
        assert Filter(q, s) == Filter(q, s[1..]);
      }
    }
  }

  lemma {:induction false} FilterSort(q: EventRow -> bool, s: seq<EventRow>)
    ensures Filter(q, SortByCreateTime(s)) == SortByCreateTime(Filter(q, s))
    decreases |s|
  {
    if s != [] {
      FilterSort(q, s[1..]);
      FilterInsert(q, s[0], SortByCreateTime(s[1..]));
    }
  }

  // ---------------------------------------------------------------------------
  // The latest allocation of each allocation ID.

  /**
    * The latest query returns the full history of the job, in the same order,
    * with every superseded row removed: it is a subsequence of the history.
    */
  lemma LatestIsFilteredHistory(t: seq<EventRow>, id: string)
    ensures AllocationRows(t, id, true) == Filter(AllocationFilter(t, id, true), AllocationRows(t, id, false))
  {
    var p, q := AllocationFilter(t, id, false), AllocationFilter(t, id, true);
    FilterConjunction(p, q, t);
    FilterSort(q, Filter(p, t));
  }

  /** A row the latest query keeps has the greatest index of its allocation. */
  lemma LatestHasMaxIndex(t: seq<EventRow>, id: string, x: EventRow, k: nat)
    requires x in AllocationRows(t, id, true)
    requires k < |t| && MatchesJob(t[k], id)
    requires AllocOf(t[k]).id == AllocOf(x).id
    ensures t[k].index <= x.index
  {
    assert x in multiset(AllocationRows(t, id, true));
  }

  /** Among the rows of job `id` for allocation `a`, one with the greatest index. */
  lemma NewestRow(t: seq<EventRow>, id: string, k: nat) returns (j: nat)
    requires k < |t| && MatchesJob(t[k], id)
    ensures j < |t| && MatchesJob(t[j], id) && AllocOf(t[j]).id == AllocOf(t[k]).id
    ensures t[k].index <= t[j].index
    ensures forall m :: 0 <= m < |t| && MatchesJob(t[m], id) && AllocOf(t[m]).id == AllocOf(t[k]).id ==>
              t[m].index <= t[j].index
  {
    var a := AllocOf(t[k]).id;
    j := k;
    var i := 0;
    while i < |t|
      invariant 0 <= i <= |t|
      invariant j < |t| && MatchesJob(t[j], id) && AllocOf(t[j]).id == a && t[k].index <= t[j].index
      invariant forall m :: 0 <= m < i && MatchesJob(t[m], id) && AllocOf(t[m]).id == a ==> t[m].index <= t[j].index
    {
      if MatchesJob(t[i], id) && AllocOf(t[i]).id == a && t[i].index > t[j].index {
        j := i;
      }
      i := i + 1;
    }
  }

  /** Every allocation in the history is represented in the latest query, by a row no older. */
  lemma LatestCoversEveryAllocation(t: seq<EventRow>, id: string, k: nat)
    requires k < |t| && MatchesJob(t[k], id)
    ensures exists x :: x in AllocationRows(t, id, true) && AllocOf(x).id == AllocOf(t[k]).id && t[k].index <= x.index
  {
    var j := NewestRow(t, id, k);
    assert !Superseded(t, t[j], id);
    assert t[j] in multiset(t);
    assert t[j] in multiset(AllocationRows(t, id, true));
    assert t[j] in AllocationRows(t, id, true);
  }

  /** Two positions of a sequence holding the same value count it twice. */
  lemma RepeatedValue(s: seq<EventRow>, i: nat, j: nat)
    requires i < j < |s| && s[i] == s[j]
    ensures multiset(s)[s[i]] >= 2
  {
    assert s == s[..j] + [s[j]] + s[j + 1..];
    assert s[i] == s[..j][i];
    assert s[i] in multiset(s[..j]);
  }

  /** With distinct event indices, the latest query holds one row per allocation ID. */
  lemma LatestUniquePerAllocation(t: seq<EventRow>, id: string)
    requires forall i, j :: 0 <= i < |t| && 0 <= j < |t| && i != j ==> t[i].index != t[j].index
    ensures var l := AllocationRows(t, id, true);
            forall i, j :: 0 <= i < j < |l| ==> AllocOf(l[i]).id != AllocOf(l[j]).id
  {
    var l := AllocationRows(t, id, true);
    forall i, j | 0 <= i < j < |l| ensures AllocOf(l[i]).id != AllocOf(l[j]).id {
      if AllocOf(l[i]).id == AllocOf(l[j]).id {
        assert l[i] in multiset(l) && l[j] in multiset(l);
        assert l[i] in multiset(t) && l[j] in multiset(t);
        var a :| 0 <= a < |t| && t[a] == l[i];
        var b :| 0 <= b < |t| && t[b] == l[j];
        assert !Superseded(t, l[i], id) && !Superseded(t, l[j], id);
        assert a == b;
        DistinctIndicesCountOnce(t, a);
        RepeatedValue(l, i, j);
      }
    }
  }

  /** With distinct indices, each row occurs once in the table. */
  lemma {:induction false} DistinctIndicesCountOnce(t: seq<EventRow>, a: nat)
    requires forall i, j :: 0 <= i < |t| && 0 <= j < |t| && i != j ==> t[i].index != t[j].index
    requires a < |t|
    ensures multiset(t)[t[a]] == 1
  {
    var x := t[a];
    assert t == t[..a] + [x] + t[a + 1..];
    assert x !in multiset(t[..a]);
    assert x !in multiset(t[a + 1..]);
  }

  /**
    * Three updates of one allocation with indices 10, 20 and 15: the latest
    * query keeps only the update with index 20.
    */
  lemma LatestWinsExample(id: string, r1: EventRow, r2: EventRow, r3: EventRow)
    requires MatchesJob(r1, id) && MatchesJob(r2, id) && MatchesJob(r3, id)
    requires AllocOf(r1).id == AllocOf(r2).id == AllocOf(r3).id
    requires r1.index == 10 && r2.index == 20 && r3.index == 15
    ensures AllocationRows([r1, r2, r3], id, true) == [r2]
  {
    var t := [r1, r2, r3];
    assert Superseded(t, r1, id) by { assert t[1] == r2; }
    assert Superseded(t, r3, id) by { assert t[1] == r2; }
    assert !Superseded(t, r2, id);
    var q := AllocationFilter(t, id, true);
    assert t[1..] == [r2, r3] && t[1..][1..] == [r3];
    assert Filter(q, [r3]) == [];
    assert Filter(q, [r2, r3]) == [r2];
    assert Filter(q, t) == [r2];
    assert SortByCreateTime([r2]) == [r2];
  }
}
