/** What the atomic log promises over whole runs. */
module LedgerLaws {
  import opened Wrappers
  import opened Projects
  import opened Ledger

  /** The state the `i`-th operation of a log meets. */
  function At(l: Ledger, ops: seq<Op>, i: nat, limit: nat): Ledger
    requires i <= |ops|
  {
    Replay(l, ops[..i], limit)
  }

  predicate Writes(op: Op) {
    op.Save? || op.Restore?
  }

  function Count(ops: seq<Op>, p: Op -> bool): nat {
    if ops == [] then 0 else (if p(ops[0]) then 1 else 0) + Count(ops[1..], p)
  }

  lemma {:induction false} ReplaySplits(l: Ledger, ops: seq<Op>, i: nat, limit: nat)
    requires LegalLog(l, ops, limit) && i <= |ops|
    ensures LegalLog(l, ops[..i], limit) && LegalLog(At(l, ops, i, limit), ops[i..], limit)
    ensures Replay(l, ops, limit) == Replay(At(l, ops, i, limit), ops[i..], limit)
    decreases i
  {
    if i == 0 {
      assert ops[..0] == [] && ops[0..] == ops;
    } else {
      ReplaySplits(Exec(l, ops[0], limit), ops[1..], i - 1, limit);
      assert ops[..i][1..] == ops[1..][..i - 1] && ops[i..] == ops[1..][i - 1..];
    }
  }

  /** History is append-only: a version once recorded never changes. */
  lemma {:induction false} HistoryGrows(l: Ledger, ops: seq<Op>, limit: nat)
    requires LegalLog(l, ops, limit)
    ensures l.history <= Replay(l, ops, limit).history
    decreases |ops|
  {
    if ops != [] {
      HistoryGrows(Exec(l, ops[0], limit), ops[1..], limit);
    }
  }

  /** `doc_version` is one plus the accepted saves and restores. */
  lemma {:induction false} VersionCountsWrites(l: Ledger, ops: seq<Op>, limit: nat)
    requires Inv(l, limit) && LegalLog(l, ops, limit)
    ensures Replay(l, ops, limit).store.project.version == l.store.project.version + Count(ops, Writes)
    decreases |ops|
  {
    if ops != [] {
      ExecKeeps(l, ops[0], limit);
      VersionCountsWrites(Exec(l, ops[0], limit), ops[1..], limit);
    }
  }

  /** An accepted save that names base b met exactly version b, replaced exactly the document of
      version b, and made its own document version b + 1 for good. */
  lemma SaveReplacesItsBase(l: Ledger, ops: seq<Op>, i: nat, limit: nat)
    requires Inv(l, limit) && LegalLog(l, ops, limit) && i < |ops|
    requires ops[i].Save? && ops[i].input.base.Some?
    ensures var b := ops[i].input.base.value;
            && At(l, ops, i, limit).store.project.version == b >= 1
            && Exact(Replay(l, ops, limit).history, At(l, ops, i, limit).store.project.doc, b)
            && Exact(Replay(l, ops, limit).history, ops[i].input.doc, b + 1)
  {
    ReplaySplits(l, ops, i, limit);
    var before := At(l, ops, i, limit);
    ReplayKeeps(l, ops[..i], limit);
    assert ops[i..][0] == ops[i];
    HistoryGrows(before, ops[i..], limit);
    HistoryGrows(Exec(before, ops[i], limit), ops[i..][1..], limit);
  }

  lemma AtNext(l: Ledger, ops: seq<Op>, i: nat, limit: nat)
    requires LegalLog(l, ops, limit) && i < |ops|
    ensures Legal(At(l, ops, i, limit), ops[i])
    ensures At(l, ops, i + 1, limit) == Exec(At(l, ops, i, limit), ops[i], limit)
  {
    ReplaySplits(l, ops, i, limit);
    assert ops[i..][0] == ops[i];
    ReplaySplits(l, ops, i + 1, limit);
    ReplaySplits(l, ops[..i + 1], i, limit);
    assert ops[..i + 1][..i] == ops[..i] && ops[..i + 1][i..] == [ops[i]];
  }

  lemma {:induction false} VersionsClimb(l: Ledger, ops: seq<Op>, i: nat, j: nat, limit: nat)
    requires LegalLog(l, ops, limit) && i < j <= |ops|
    ensures At(l, ops, i, limit).store.project.version + (if Writes(ops[i]) then 1 else 0) <=
            At(l, ops, j, limit).store.project.version
    decreases j
  {
    AtNext(l, ops, j - 1, limit);
    if i < j - 1 {
      VersionsClimb(l, ops, i, j - 1, limit);
    }
  }

  /** No two saves that name the same base are both accepted. */
  lemma OneWinnerPerBase(l: Ledger, ops: seq<Op>, i: nat, j: nat, limit: nat)
    requires LegalLog(l, ops, limit) && i < j < |ops|
    requires ops[i].Save? && ops[j].Save? && ops[i].input.base.Some?
    ensures ops[i].input.base != ops[j].input.base
  {
    AtNext(l, ops, i, limit);
    AtNext(l, ops, j, limit);
    VersionsClimb(l, ops, i, j, limit);
  }

  // ---- the feed ----

  function EditsBy(feed: seq<Edit>, actor: UserId): nat {
    if feed == [] then 0 else (if feed[0].actor == actor then feed[0].edits else 0) + EditsBy(feed[1..], actor)
  }

  predicate SavedBy(op: Op, actor: UserId) {
    op.Save? && op.user == actor
  }

  function SavesBy(ops: seq<Op>, actor: UserId): nat {
    Count(ops, op => SavedBy(op, actor))
  }

  lemma {:induction false} EditsByAppend(feed: seq<Edit>, e: Edit, actor: UserId)
    ensures EditsBy(feed + [e], actor) == EditsBy(feed, actor) + if e.actor == actor then e.edits else 0
  {
    if feed != [] {
      EditsByAppend(feed[1..], e, actor);
      assert (feed + [e])[1..] == feed[1..] + [e];
    }
  }

  lemma {:induction false} EditsByUpdate(feed: seq<Edit>, i: nat, e: Edit, actor: UserId)
    requires i < |feed| && e.actor == feed[i].actor
    ensures EditsBy(feed[i := e], actor) ==
            EditsBy(feed, actor) + if e.actor == actor then e.edits - feed[i].edits else 0
  {
    if i == 0 {
      assert feed[0 := e][1..] == feed[1..];
    } else {
      EditsByUpdate(feed[1..], i - 1, e, actor);
      assert feed[i := e][1..] == feed[1..][i - 1 := e];
    }
  }

  lemma RecordEditCounts(feed: seq<Edit>, writer: UserId, version: int, at: Time, insertedAt: Time, actor: UserId)
    ensures EditsBy(RecordEdit(feed, writer, version, at, insertedAt), actor) ==
            EditsBy(feed, actor) + if writer == actor then 1 else 0
  {
    match OpenSession(feed, writer, at - EDIT_SESSION)
    case Some(i) =>
      EditsByUpdate(feed, i, feed[i].(edits := feed[i].edits + 1, toVersion := version), actor);
    case None =>
      EditsByAppend(feed, Edit(writer, 1, version - 1, version, insertedAt), actor);
  }

  /** Coalescing loses nothing: the edits the feed reports for a person are their accepted saves. */
  lemma {:induction false} FeedCountsSaves(l: Ledger, ops: seq<Op>, actor: UserId, limit: nat)
    requires LegalLog(l, ops, limit)
    ensures EditsBy(Replay(l, ops, limit).store.feed, actor) == EditsBy(l.store.feed, actor) + SavesBy(ops, actor)
    decreases |ops|
  {
    if ops != [] {
      if ops[0].Save? {
        RecordEditCounts(l.store.feed, ops[0].user, l.store.project.version + 1, ops[0].stamp.at,
                         ops[0].stamp.insertedAt, actor);
      }
      FeedCountsSaves(Exec(l, ops[0], limit), ops[1..], actor, limit);
    }
  }

  // ---- snapshots ----

  /** A named snapshot outlives every later operation, unchanged. */
  lemma {:induction false} NamedSurvive(l: Ledger, ops: seq<Op>, id: VersionId, limit: nat)
    requires Inv(l, limit) && LegalLog(l, ops, limit)
    requires id in l.store.versions && !l.store.versions[id].auto
    ensures id in Replay(l, ops, limit).store.versions
    ensures Replay(l, ops, limit).store.versions[id] == l.store.versions[id]
    decreases |ops|
  {
    if ops != [] {
      NamedSurvivesOne(l, ops[0], id, limit);
      ExecKeeps(l, ops[0], limit);
      NamedSurvive(Exec(l, ops[0], limit), ops[1..], id, limit);
    }
  }

  lemma NamedSurvivesOne(l: Ledger, op: Op, id: VersionId, limit: nat)
    requires Inv(l, limit) && Legal(l, op)
    requires id in l.store.versions && !l.store.versions[id].auto
    ensures id in Exec(l, op, limit).store.versions
    ensures Exec(l, op, limit).store.versions[id] == l.store.versions[id]
  {
    match op
    case Save(_, user, input, stamp) =>
      WriteKeepsCap(l, user, TakesSnapshot(input), TitleOf(input), input.title.None?, stamp, limit,
                    ChangeOf(l.store, op, limit));
    case Restore(_, user, _, stamp) =>
      WriteKeepsCap(l, user, true, BEFORE_RESTORE, true, stamp, limit, ChangeOf(l.store, op, limit));
    case _ =>
  }

  /** The automatic rows no older than a moment. */
  function NoOlder(versions: map<VersionId, Version>, at: Time): set<VersionId> {
    set id | id in versions && versions[id].auto && versions[id].createdAt >= at
  }

  /** The restore as it runs if the database lists the automatic rows in this order. */
  function Restoring(tx: nat, user: UserId, picked: Version, id: VersionId, at: Time, later: Time,
                     order: seq<VersionId>): Op {
    Restore(tx, user, picked, Stamp(id, at, order, later))
  }

  ghost predicate Survives(l: Ledger, op: Op, limit: nat)
    requires op.Restore?
  {
    op.stamp.id in Exec(l, op, limit).store.versions
  }

  lemma Newest(versions: map<VersionId, Version>, s: set<VersionId>) returns (top: VersionId)
    requires s != {} && s <= versions.Keys
    ensures top in s && forall id :: id in s ==> versions[id].createdAt <= versions[top].createdAt
    decreases |s|
  {
    top :| top in s;
    if s != {top} {
      var other := Newest(versions, s - {top});
      if versions[other].createdAt > versions[top].createdAt { top := other; }
    }
  }

  /** Any set of rows can be listed newest first. */
  lemma Listing(versions: map<VersionId, Version>, s: set<VersionId>) returns (order: seq<VersionId>)
    requires s <= versions.Keys
    ensures |order| == |s| && forall id :: id in s <==> id in order
    ensures forall i, j :: 0 <= i < j < |order| ==>
              order[i] != order[j] && versions[order[i]].createdAt >= versions[order[j]].createdAt
    decreases |s|
  {
    if s == {} {
      order := [];
    } else {
      var top := Newest(versions, s);
      var rest := Listing(versions, s - {top});
      order := [top] + rest;
    }
  }

  /** The listing that puts one automatic row behind every row of its own age. */
  lemma TiesFirst(versions: map<VersionId, Version>, id: VersionId) returns (order: seq<VersionId>)
    requires IsAuto(versions, id)
    ensures NewestFirst(versions, order)
    ensures var ahead := |NoOlder(versions, versions[id].createdAt) - {id}|; ahead < |order| && order[ahead] == id
  {
    var newer := NoOlder(versions, versions[id].createdAt) - {id};
    var older := AutoIds(versions) - newer - {id};
    var head := Listing(versions, newer);
    var tail := Listing(versions, older);
    order := head + [id] + tail;
    forall k | 0 <= k < |order| ensures IsAuto(versions, order[k]) {
      assert order[k] in order;
      assert order[k] in head || order[k] == id || order[k] in tail;
    }
    forall i, j | 0 <= i < j < |order|
      ensures order[i] != order[j] && versions[order[i]].createdAt >= versions[order[j]].createdAt
    {
      assert i < |head| ==> order[i] in newer;
      assert j > |head| ==> order[j] in older;
    }
    forall k | IsAuto(versions, k) ensures k in order {
      assert k in newer || k == id || k in older;
    }
  }

  /** Whatever order the database answers in, a row is listed behind no row that is older. */
  lemma ListedAhead(versions: map<VersionId, Version>, order: seq<VersionId>, i: nat)
    requires NewestFirst(versions, order) && i < |order|
    ensures i <= |NoOlder(versions, versions[order[i]].createdAt) - {order[i]}|
  {
    var ahead := set k | 0 <= k < i :: order[k];
    forall x | x in ahead ensures x in NoOlder(versions, versions[order[i]].createdAt) - {order[i]} {
      var k :| 0 <= k < i && order[k] == x;
      assert IsAuto(versions, order[k]);
    }
    forall x ensures x in ahead <==> x in order[..i] {
      if x in order[..i] {
        var k :| 0 <= k < i && order[..i][k] == x;
        assert order[k] == x;
      }
    }
    DistinctCard(order[..i], ahead);
    Within(ahead, NoOlder(versions, versions[order[i]].createdAt) - {order[i]});
  }

  lemma Within<T>(a: set<T>, b: set<T>)
    requires a <= b
    ensures |a| <= |b|
  {
    assert b == a + (b - a);
  }

  /** The table with the "Before restore" row staged: as many other rows are no older as were before. */
  lemma StagedAhead(versions: map<VersionId, Version>, id: VersionId, row: Version)
    requires id !in versions
    ensures NoOlder(versions[id := row], row.createdAt) - {id} == NoOlder(versions, row.createdAt)
  {
  }

  lemma SurvivesListing(l: Ledger, op: Op, limit: nat)
    requires op.Restore? && Legal(l, op) && op.stamp.id !in l.store.versions && !l.store.project.doc.Empty()
    ensures var row := SnapshotRow(l.store.project, op.user, BEFORE_RESTORE, true, op.stamp.at);
            var staged := l.store.versions[op.stamp.id := row];
            && NewestFirst(staged, op.stamp.order)
            && (exists i :: 0 <= i < |op.stamp.order| && op.stamp.order[i] == op.stamp.id)
            && (forall i :: 0 <= i < |op.stamp.order| && op.stamp.order[i] == op.stamp.id ==>
                (Survives(l, op, limit) <==> i < limit))
  {
    var id, order := op.stamp.id, op.stamp.order;
    var staged := l.store.versions[id := SnapshotRow(l.store.project, op.user, BEFORE_RESTORE, true, op.stamp.at)];
    assert IsAuto(staged, id);
    var drop := SnapshotDrops(l.store.project, true, order, limit);
    assert Exec(l, op, limit).store.versions == staged - drop;
    forall i | 0 <= i < |order| && order[i] == id ensures id in staged - drop <==> i < limit {
      if i >= limit { assert order[i] in drop; }
    }
  }

  /** When a restore can be undone. Its "Before restore" row is sure to be kept, however the database
      orders rows of one age, exactly when there was a document to lose and fewer automatic rows than
      the limit are as new as the restore or newer. */
  lemma RestoreIsUndoable(l: Ledger, tx: nat, user: UserId, picked: Version, id: VersionId, at: Time, later: Time,
                          limit: nat)
    requires Exact(l.history, picked.doc, picked.version) && id !in l.store.versions
    ensures (forall order :: Legal(l, Restoring(tx, user, picked, id, at, later, order)) ==>
                               Survives(l, Restoring(tx, user, picked, id, at, later, order), limit))
            <==> (!l.store.project.doc.Empty() && |NoOlder(l.store.versions, at)| < limit)
  {
    var p := l.store.project;
    if p.doc.Empty() {
      var op := Restoring(tx, user, picked, id, at, later, []);
      assert Legal(l, op) && !Survives(l, op, limit);
    } else {
      var row := SnapshotRow(p, user, BEFORE_RESTORE, true, at);
      var staged := l.store.versions[id := row];
      StagedAhead(l.store.versions, id, row);
      if |NoOlder(l.store.versions, at)| < limit {
        forall order | Legal(l, Restoring(tx, user, picked, id, at, later, order))
          ensures Survives(l, Restoring(tx, user, picked, id, at, later, order), limit)
        {
          SurvivesListing(l, Restoring(tx, user, picked, id, at, later, order), limit);
          var i :| 0 <= i < |order| && order[i] == id;
          ListedAhead(staged, order, i);
        }
      } else {
        assert IsAuto(staged, id);
        var order := TiesFirst(staged, id);
        var op := Restoring(tx, user, picked, id, at, later, order);
        SurvivesListing(l, op, limit);
        assert order[|NoOlder(l.store.versions, at)|] == id;
        assert Legal(l, op) && !Survives(l, op, limit);
      }
    }
  }

  /** Restoring the kept row brings back the document and its counts. */
  lemma UndoBringsBack(l: Ledger, first: Op, again: Op, limit: nat)
    requires Inv(l, limit) && first.Restore? && Legal(l, first) && first.stamp.id !in l.store.versions
    requires Survives(l, first, limit)
    requires again.Restore? && again.picked == Exec(l, first, limit).store.versions[first.stamp.id]
    requires Legal(Exec(l, first, limit), again)
    ensures var p := Exec(Exec(l, first, limit), again, limit).store.project;
            p.doc == l.store.project.doc && p.screens == l.store.project.screens && p.modules == l.store.project.modules
  {
  }

  /** The tie that loses the way back, from a new project: one save and one restore in the same microsecond
      with a limit of one. The listing puts the save's row first and the restore deletes its own. */
  lemma TieLosesTheWayBack() returns (l: Ledger, ops: seq<Op>)
    ensures l == Born(Doc(Items(1), Absent, []), 1, 0, 5) && LegalLog(l, ops, 1) && TimelyLog(l, ops, 1)
    ensures |ops| == 2 && ops[1].Restore? && !At(l, ops, 1, 1).store.project.doc.Empty()
    ensures ops[1].stamp.id !in Replay(l, ops, 1).store.versions
  {
    var one, two := Doc(Items(1), Absent, []), Doc(Items(2), Absent, []);
    l := Born(one, 1, 0, 5);
    var row := SnapshotRow(l.store.project, 0, "", true, 5);
    var save := Save(0, 0, SaveInput(two, None, None, None, true), Stamp(0, 5, [0], 5));
    assert IsAuto(map[0 := row], 0);
    assert l.store.versions[0 := row] == map[0 := row];
    var saved := Exec(l, save, 1);
    assert saved.store.versions == map[0 := row];
    var before := SnapshotRow(saved.store.project, 0, BEFORE_RESTORE, true, 5);
    var restore := Restore(1, 0, row, Stamp(1, 5, [0, 1], 5));
    assert saved.store.versions[1 := before] == map[0 := row, 1 := before];
    assert restore.stamp.order[1] in SnapshotDrops(saved.store.project, true, restore.stamp.order, 1);
    ops := [save, restore];
    assert ops[1..] == [restore] && ops[1..][1..] == [];
    assert ops[..1] == [save] && [save][1..] == [];
    assert Replay(saved, [], 1) == saved && Replay(l, [save], 1) == Replay(saved, [], 1);
    assert Replay(saved, [restore], 1) == Replay(Exec(saved, restore, 1), [], 1) == Exec(saved, restore, 1);
    assert Replay(l, ops, 1) == Replay(saved, [restore], 1);
  }
}
