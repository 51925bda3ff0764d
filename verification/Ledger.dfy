/** The atomic document log: every accepted write, refusal and named snapshot as one step, and
    what every such log keeps. `SaveProtocol` shows that the interleaved service refines it. */
module Ledger {
  import opened Wrappers
  import opened Projects

  /** `history[v - 1]` is the document at version v; `pruned` collects the snapshots pruning removed. */
  datatype Ledger = Ledger(store: Store, history: seq<Doc>, pruned: seq<Version>, clock: Time)

  datatype Op =
    | Save(tx: nat, user: UserId, input: SaveInput, stamp: Stamp)
    | Restore(tx: nat, user: UserId, picked: Version, stamp: Stamp)
    | Keep(tx: nat, user: UserId, title: string, seen: Project, id: VersionId, at: Time)
    | Refuse(tx: nat, base: int, current: nat)
    | Rename(user: UserId)

  /** `doc` is exactly the project's document at version `v`. */
  ghost predicate Exact(history: seq<Doc>, doc: Doc, v: nat) {
    1 <= v <= |history| && history[v - 1] == doc
  }

  /** The id is fresh and the listing is one the database may answer. Nothing is asked of the clock. */
  ghost predicate StampOk(s: Store, takes: bool, row: Version, stamp: Stamp) {
    takes && !s.project.doc.Empty() ==>
      && stamp.id !in s.versions
      && (row.auto ==> NewestFirst(s.versions[stamp.id := row], stamp.order))
  }

  ghost predicate SaveStampOk(s: Store, user: UserId, input: SaveInput, stamp: Stamp) {
    StampOk(s, TakesSnapshot(input),
            SnapshotRow(s.project, user, TitleOf(input), input.title.None?, stamp.at), stamp)
  }

  ghost predicate RestoreStampOk(s: Store, user: UserId, stamp: Stamp) {
    StampOk(s, true, SnapshotRow(s.project, user, BEFORE_RESTORE, true, stamp.at), stamp)
  }

  ghost predicate Legal(l: Ledger, op: Op) {
    match op
    case Save(_, user, input, stamp) =>
      BaseAccepted(input.base, l.store.project.version) && SaveStampOk(l.store, user, input, stamp)
    case Restore(_, user, picked, stamp) =>
      Exact(l.history, picked.doc, picked.version) && RestoreStampOk(l.store, user, stamp)
    case Keep(_, _, _, seen, id, _) =>
      Exact(l.history, seen.doc, seen.version) && !seen.doc.Empty() && id !in l.store.versions
    case Refuse(_, base, current) =>
      base != current && current == l.store.project.version
    case Rename(_) => true
  }

  function ChangeOf(s: Store, op: Op, limit: nat): Change
    requires op.Save? || op.Restore?
  {
    match op
    case Save(_, user, input, stamp) => SaveChange(s.project, s.feed, user, input, stamp, limit)
    case Restore(_, user, picked, stamp) => RestoreChange(s.project, s.feed, user, picked.doc, stamp, limit)
  }

  /** The rows a set of ids names, in the order the database listed them. */
  function RowsOf(versions: map<VersionId, Version>, order: seq<VersionId>, drop: set<VersionId>): seq<Version> {
    if order == [] then []
    else (if order[0] in drop && order[0] in versions then [versions[order[0]]] else []) +
         RowsOf(versions, order[1..], drop)
  }

  function Exec(l: Ledger, op: Op, limit: nat): Ledger {
    match op
    case Save(_, _, _, stamp) => ExecWrite(l, ChangeOf(l.store, op, limit), stamp)
    case Restore(_, _, _, stamp) => ExecWrite(l, ChangeOf(l.store, op, limit), stamp)
    case Keep(_, user, title, seen, id, at) =>
      l.(store := l.store.(versions := l.store.versions[id := SnapshotRow(seen, user, title, false, at)]))
    case Refuse(_, _, _) => l
    case Rename(user) =>
      l.(store := l.store.(project := l.store.project.(updatedBy := Some(user))))
  }

  function ExecWrite(l: Ledger, c: Change, stamp: Stamp): Ledger {
    Ledger(Commit(l.store, c), l.history + [c.project.doc],
           l.pruned + RowsOf(l.store.versions + c.added, stamp.order, c.dropped), stamp.insertedAt)
  }

  ghost predicate LegalLog(l: Ledger, ops: seq<Op>, limit: nat)
    decreases |ops|
  {
    ops == [] || (Legal(l, ops[0]) && LegalLog(Exec(l, ops[0], limit), ops[1..], limit))
  }

  function Replay(l: Ledger, ops: seq<Op>, limit: nat): Ledger
    decreases |ops|
  {
    if ops == [] then l else Replay(Exec(l, ops[0], limit), ops[1..], limit)
  }

  // ---- what every log keeps ----

  ghost predicate HistoryOk(l: Ledger) {
    && |l.history| == l.store.project.version
    && Exact(l.history, l.store.project.doc, l.store.project.version)
    && l.store.project.CountsMatch()
  }

  /** Every version row is the document at the version it records, and none is empty. */
  ghost predicate VersionsExact(l: Ledger) {
    forall id :: id in l.store.versions ==>
      Exact(l.history, l.store.versions[id].doc, l.store.versions[id].version) && !l.store.versions[id].doc.Empty()
  }

  // ---- what logs keep when the clock never goes back ----

  /** This write reads a clock that has not gone back since the last one. */
  predicate Timely(l: Ledger, op: Op) {
    op.Save? || op.Restore? ==> l.clock <= op.stamp.at <= op.stamp.insertedAt
  }

  ghost predicate TimelyLog(l: Ledger, ops: seq<Op>, limit: nat)
    decreases |ops|
  {
    ops == [] || (Timely(l, ops[0]) && TimelyLog(Exec(l, ops[0], limit), ops[1..], limit))
  }

  /** The cap, and that what pruning kept is at least as new as all it ever removed. */
  ghost predicate HistoryCapped(l: Ledger, limit: nat) {
    && |AutoIds(l.store.versions)| <= limit
    && (forall id, k :: IsAuto(l.store.versions, id) && 0 <= k < |l.pruned| ==>
          l.pruned[k].createdAt <= l.store.versions[id].createdAt)
    && (forall k :: 0 <= k < |l.pruned| ==> l.pruned[k].auto)
    && (l.pruned != [] ==> |AutoIds(l.store.versions)| == limit)
  }

  /** Entries never count more saves than the versions they span; one person's entries span
      disjoint, increasing ranges and were opened more than ten minutes apart. */
  ghost predicate FeedOk(feed: seq<Edit>, version: nat, clock: Time) {
    && (forall i :: 0 <= i < |feed| ==>
          1 <= feed[i].edits <= feed[i].toVersion - feed[i].fromVersion
          && feed[i].toVersion <= version && feed[i].openedAt <= clock)
    && (forall i, j :: 0 <= i < j < |feed| && feed[i].actor == feed[j].actor ==>
          feed[i].toVersion <= feed[j].fromVersion && feed[i].openedAt + EDIT_SESSION < feed[j].openedAt)
  }

  ghost predicate Inv(l: Ledger, limit: nat) {
    HistoryOk(l) && VersionsExact(l) && HistoryCapped(l, limit)
  }

  ghost predicate FeedSound(l: Ledger) {
    FeedOk(l.store.feed, l.store.project.version, l.clock)
  }

  /** A project as `create_project` leaves it. */
  function Born(doc: Doc, schema: int, creator: UserId, at: Time): Ledger {
    Ledger(Store(Project(doc, 1, CountField(doc.screens), CountField(doc.modules), schema, Some(creator)),
                 map[], []), [doc], [], at)
  }

  lemma BornIsSound(doc: Doc, schema: int, creator: UserId, at: Time, limit: nat)
    ensures Inv(Born(doc, schema, creator, at), limit) && FeedSound(Born(doc, schema, creator, at))
  {
    assert AutoIds(map[]) == {};
  }

  // ---- pruning ----

  lemma DistinctCard(order: seq<VersionId>, s: set<VersionId>)
    requires forall i, j :: 0 <= i < j < |order| ==> order[i] != order[j]
    requires forall x :: x in s <==> x in order
    ensures |s| == |order|
  {
    if order != [] {
      DistinctCard(order[1..], s - {order[0]});
    } else {
      assert s == {};
    }
  }

  lemma RowsOfMember(versions: map<VersionId, Version>, order: seq<VersionId>, drop: set<VersionId>, k: nat)
    requires k < |RowsOf(versions, order, drop)|
    ensures exists id :: id in order && id in drop && id in versions && versions[id] == RowsOf(versions, order, drop)[k]
  {
    var first := if order[0] in drop && order[0] in versions then [versions[order[0]]] else [];
    if k >= |first| {
      RowsOfMember(versions, order[1..], drop, k - |first|);
    } else {
      assert order[0] in order;
    }
  }

  lemma RowsOfEmpty(versions: map<VersionId, Version>, order: seq<VersionId>)
    ensures RowsOf(versions, order, {}) == []
  {
  }

  /** What pruning leaves of a table is the first `limit` rows of the newest-first listing. */
  lemma PruneKeeps(versions: map<VersionId, Version>, order: seq<VersionId>, limit: nat, drop: set<VersionId>)
    requires NewestFirst(versions, order)
    requires drop == if |order| <= limit then {} else set i | limit <= i < |order| :: order[i]
    ensures |AutoIds(versions - drop)| == if |order| <= limit then |order| else limit
    ensures drop != {} ==> |order| > limit
    ensures forall id, d :: IsAuto(versions - drop, id) && d in drop ==>
              d in versions && versions[d].auto && versions[d].createdAt <= versions[id].createdAt
    ensures forall id :: id in versions && !versions[id].auto ==> id in versions - drop
  {
    var kept := if |order| <= limit then order else order[..limit];
    assert forall id :: id in AutoIds(versions - drop) <==> id in kept by {
      forall id ensures id in AutoIds(versions - drop) <==> id in kept {
        if id in kept {
          var i :| 0 <= i < |kept| && kept[i] == id;
          assert order[i] == id && IsAuto(versions, id);
        }
        if id in AutoIds(versions - drop) {
          assert IsAuto(versions, id);
          var i :| 0 <= i < |order| && order[i] == id;
          assert i < |kept|;
          assert kept[i] == id;
        }
      }
    }
    DistinctCard(kept, AutoIds(versions - drop));
    forall id, d | IsAuto(versions - drop, id) && d in drop
      ensures d in versions && versions[d].auto && versions[d].createdAt <= versions[id].createdAt
    {
      assert IsAuto(versions, id);
      var i :| 0 <= i < |order| && order[i] == id;
      var j :| limit <= j < |order| && order[j] == d;
      assert i < limit;
    }
  }

  // ---- one write keeps the invariant ----

  /** A step that leaves the automatic rows and the pruned ones alone keeps the cap. */
  lemma CapUntouched(l: Ledger, l': Ledger, limit: nat)
    requires HistoryCapped(l, limit) && l'.pruned == l.pruned
    requires forall id :: IsAuto(l'.store.versions, id) <==> IsAuto(l.store.versions, id)
    requires forall id :: IsAuto(l.store.versions, id) ==>
               id in l'.store.versions && l'.store.versions[id] == l.store.versions[id]
    ensures HistoryCapped(l', limit)
  {
    forall id ensures id in AutoIds(l'.store.versions) <==> id in AutoIds(l.store.versions) {
      assert IsAuto(l'.store.versions, id) <==> IsAuto(l.store.versions, id);
    }
    assert AutoIds(l'.store.versions) == AutoIds(l.store.versions);
  }

  lemma WriteKeepsCap(l: Ledger, user: UserId, takes: bool, title: string, auto: bool, stamp: Stamp,
                      limit: nat, c: Change)
    requires HistoryCapped(l, limit)
    requires StampOk(l.store, takes, SnapshotRow(l.store.project, user, title, auto, stamp.at), stamp)
    requires var row := SnapshotRow(l.store.project, user, title, auto, stamp.at);
             c.added == if takes then SnapshotAdds(l.store.project, row, stamp.id) else map[]
    requires c.dropped == if takes then SnapshotDrops(l.store.project, auto, stamp.order, limit) else {}
    ensures HistoryCapped(ExecWrite(l, c, stamp), limit)
    ensures forall id :: id in l.store.versions && !l.store.versions[id].auto ==>
              && id in ExecWrite(l, c, stamp).store.versions
              && ExecWrite(l, c, stamp).store.versions[id] == l.store.versions[id]
  {
    var row := SnapshotRow(l.store.project, user, title, auto, stamp.at);
    var l' := ExecWrite(l, c, stamp);
    var staged := l.store.versions + c.added;
    if takes && !l.store.project.doc.Empty() && auto {
      assert staged == l.store.versions[stamp.id := row];
      PruneKeeps(staged, stamp.order, limit, c.dropped);
      PrunedStayOlder(l, stamp, limit, row, c.dropped);
      assert l'.store.versions == staged - c.dropped;
      assert l'.pruned == l.pruned + RowsOf(staged, stamp.order, c.dropped);
    } else {
      assert c.dropped == {};
      RowsOfEmpty(staged, stamp.order);
      assert l'.store.versions == staged;
      CapUntouched(l, l', limit);
    }
  }

  lemma WriteKeepsExact(l: Ledger, user: UserId, takes: bool, title: string, auto: bool, stamp: Stamp, c: Change)
    requires HistoryOk(l) && VersionsExact(l)
    requires var row := SnapshotRow(l.store.project, user, title, auto, stamp.at);
             c.added == if takes then SnapshotAdds(l.store.project, row, stamp.id) else map[]
    ensures VersionsExact(ExecWrite(l, c, stamp))
  {
    var l' := ExecWrite(l, c, stamp);
    forall id | id in l'.store.versions
      ensures Exact(l'.history, l'.store.versions[id].doc, l'.store.versions[id].version) &&
              !l'.store.versions[id].doc.Empty()
    {
      if id in c.added {
        assert Exact(l.history, l.store.project.doc, l.store.project.version);
      }
    }
  }

  /** `row` is an automatic snapshot of the table and its id is in `drop`. */
  ghost predicate Dropped(versions: map<VersionId, Version>, drop: set<VersionId>, row: Version) {
    exists d :: d in drop && IsAuto(versions, d) && versions[d] == row
  }

  /** Every row `RowsOf` reports is an automatic snapshot of the table, among those dropped. */
  lemma RowsOfAutos(versions: map<VersionId, Version>, order: seq<VersionId>, drop: set<VersionId>)
    requires forall i :: 0 <= i < |order| ==> IsAuto(versions, order[i])
    ensures forall k :: 0 <= k < |RowsOf(versions, order, drop)| ==>
            Dropped(versions, drop, RowsOf(versions, order, drop)[k])
  {
    forall k | 0 <= k < |RowsOf(versions, order, drop)|
      ensures Dropped(versions, drop, RowsOf(versions, order, drop)[k])
    {
      RowsOfMember(versions, order, drop, k);
      var d :| d in order && d in drop && d in versions && versions[d] == RowsOf(versions, order, drop)[k];
      assert IsAuto(versions, d);
    }
  }

  lemma AutosGrow(versions: map<VersionId, Version>, id: VersionId, row: Version, order: seq<VersionId>)
    requires id !in versions && row.auto && NewestFirst(versions[id := row], order)
    ensures |order| == |AutoIds(versions)| + 1
  {
    var staged := versions[id := row];
    assert AutoIds(staged) == AutoIds(versions) + {id};
    forall x ensures x in AutoIds(staged) <==> x in order {
      assert IsAuto(staged, x) <==> x in AutoIds(staged);
      if x in order {
        var i :| 0 <= i < |order| && order[i] == x;
        assert IsAuto(staged, order[i]);
      }
    }
    DistinctCard(order, AutoIds(staged));
  }

  lemma PrunedStayOlder(l: Ledger, stamp: Stamp, limit: nat, row: Version, drop: set<VersionId>)
    requires HistoryCapped(l, limit)
    requires row.auto && stamp.id !in l.store.versions
    requires NewestFirst(l.store.versions[stamp.id := row], stamp.order)
    requires drop == if |stamp.order| <= limit then {} else set i | limit <= i < |stamp.order| :: stamp.order[i]
    ensures var staged := l.store.versions[stamp.id := row];
            var pruned := l.pruned + RowsOf(staged, stamp.order, drop);
            && |AutoIds(staged - drop)| <= limit
            && (forall k :: 0 <= k < |pruned| ==> pruned[k].auto)
            && (forall id, k :: IsAuto(staged - drop, id) && 0 <= k < |pruned| ==>
                pruned[k].createdAt <= (staged - drop)[id].createdAt)
            && (pruned != [] ==> |AutoIds(staged - drop)| == limit)
  {
    var staged := l.store.versions[stamp.id := row];
    var removed := RowsOf(staged, stamp.order, drop);
    var pruned := l.pruned + removed;
    PruneKeeps(staged, stamp.order, limit, drop);
    AutosGrow(l.store.versions, stamp.id, row, stamp.order);
    RowsOfAutos(staged, stamp.order, drop);
    if drop == {} { RowsOfEmpty(staged, stamp.order); }
    forall k | 0 <= k < |pruned|
      ensures pruned[k].auto
      ensures forall id :: IsAuto(staged - drop, id) ==> pruned[k].createdAt <= (staged - drop)[id].createdAt
    {
      if k >= |l.pruned| {
        assert Dropped(staged, drop, removed[k - |l.pruned|]);
      } else {
        var last := stamp.order[limit];
        forall id | IsAuto(staged - drop, id) ensures l.pruned[k].createdAt <= (staged - drop)[id].createdAt {
          // a row that stays is no older than the one that goes, be it the new one or not
          assert last in drop && IsAuto(staged, last);
          assert id != stamp.id ==> IsAuto(l.store.versions, id);
          assert last != stamp.id ==> IsAuto(l.store.versions, last);
        }
      }
    }
  }

  lemma RecordEditKeeps(feed: seq<Edit>, version: nat, clock: Time, actor: UserId, at: Time, insertedAt: Time)
    requires FeedOk(feed, version, clock) && clock <= at <= insertedAt
    ensures FeedOk(RecordEdit(feed, actor, version + 1, at, insertedAt), version + 1, insertedAt)
  {
    var open := OpenSession(feed, actor, at - EDIT_SESSION);
    var feed' := RecordEdit(feed, actor, version + 1, at, insertedAt);
    if open.Some? {
      var i := open.value;
      assert forall j :: i < j < |feed| ==> !OpenFor(feed[j], actor, at - EDIT_SESSION);
    } else {
      forall i | 0 <= i < |feed| && feed[i].actor == actor
        ensures feed[i].openedAt + EDIT_SESSION < insertedAt
      {
        assert !OpenFor(feed[i], actor, at - EDIT_SESSION);
      }
    }
  }

  lemma SaveKeeps(l: Ledger, op: Op, limit: nat)
    requires op.Save? && Inv(l, limit) && Legal(l, op)
    ensures Inv(Exec(l, op, limit), limit)
  {
    var c := ChangeOf(l.store, op, limit);
    var takes, auto := TakesSnapshot(op.input), op.input.title.None?;
    WriteKeepsCap(l, op.user, takes, TitleOf(op.input), auto, op.stamp, limit, c);
    WriteKeepsExact(l, op.user, takes, TitleOf(op.input), auto, op.stamp, c);
  }

  lemma SaveKeepsFeed(l: Ledger, op: Op, limit: nat)
    requires op.Save? && Timely(l, op) && FeedSound(l)
    ensures FeedSound(Exec(l, op, limit))
  {
    RecordEditKeeps(l.store.feed, l.store.project.version, l.clock, op.user, op.stamp.at, op.stamp.insertedAt);
  }

  lemma RestoreKeeps(l: Ledger, op: Op, limit: nat)
    requires op.Restore? && Inv(l, limit) && Legal(l, op)
    ensures Inv(Exec(l, op, limit), limit)
  {
    var c := ChangeOf(l.store, op, limit);
    WriteKeepsCap(l, op.user, true, BEFORE_RESTORE, true, op.stamp, limit, c);
    WriteKeepsExact(l, op.user, true, BEFORE_RESTORE, true, op.stamp, c);
  }

  lemma ExecKeeps(l: Ledger, op: Op, limit: nat)
    requires Inv(l, limit) && Legal(l, op)
    ensures Inv(Exec(l, op, limit), limit)
  {
    match op
    case Save(_, _, _, _) => SaveKeeps(l, op, limit);
    case Restore(_, _, _, _) => RestoreKeeps(l, op, limit);
    case Keep(_, _, _, _, _, _) => CapUntouched(l, Exec(l, op, limit), limit);
    case Refuse(_, _, _) =>
    case Rename(_) => CapUntouched(l, Exec(l, op, limit), limit);
  }

  lemma {:induction false} ReplayKeeps(l: Ledger, ops: seq<Op>, limit: nat)
    requires Inv(l, limit) && LegalLog(l, ops, limit)
    ensures Inv(Replay(l, ops, limit), limit)
    decreases |ops|
  {
    if ops != [] {
      ExecKeeps(l, ops[0], limit);
      ReplayKeeps(Exec(l, ops[0], limit), ops[1..], limit);
    }
  }

  /** With a clock that never goes back, the feed keeps its shape too. */
  lemma {:induction false} ReplayKeepsFeed(l: Ledger, ops: seq<Op>, limit: nat)
    requires FeedSound(l) && TimelyLog(l, ops, limit)
    ensures FeedSound(Replay(l, ops, limit))
    decreases |ops|
  {
    if ops != [] {
      if ops[0].Save? { SaveKeepsFeed(l, ops[0], limit); }
      ReplayKeepsFeed(Exec(l, ops[0], limit), ops[1..], limit);
    }
  }
}
