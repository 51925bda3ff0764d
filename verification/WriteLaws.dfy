/** What one accepted write leaves behind, told field by field over whole logs: the feed entry that covers it,
    the snapshot of what it replaced, and who and what the project row then names. */
module WriteLaws {
  import opened Wrappers
  import opened Projects
  import opened Ledger
  import opened LedgerLaws

  // ---- the feed ----

  /** The entry says that this person saved version v, at a time within ten minutes of its opening. */
  predicate Notes(e: Edit, actor: UserId, v: int, at: Time) {
    e.actor == actor && e.fromVersion < v <= e.toVersion && at <= e.openedAt + EDIT_SESSION
  }

  /** The entry of the newest save: it ends at that version, and is either new or was open. */
  ghost predicate NotedLast(feed: seq<Edit>, feed': seq<Edit>, i: nat, actor: UserId, v: int, at: Time,
                            insertedAt: Time) {
    && |feed| <= |feed'| <= |feed| + 1 && i < |feed'|
    && Notes(feed'[i], actor, v, at) && feed'[i].toVersion == v
    && (forall j :: 0 <= j < |feed| && j != i ==> feed'[j] == feed[j])
    && (if i < |feed| then
          |feed'| == |feed| && feed'[i].edits == feed[i].edits + 1 && feed'[i].openedAt == feed[i].openedAt
          && feed'[i].fromVersion == feed[i].fromVersion && feed'[i].actor == feed[i].actor
        else feed'[i] == Edit(actor, 1, v - 1, v, insertedAt))
  }

  /** An accepted save is noted under the version it made, in an entry opened at most ten minutes before. */
  lemma SaveIsNoted(l: Ledger, op: Op, limit: nat) returns (i: nat)
    requires op.Save? && Timely(l, op) && FeedSound(l)
    ensures var l' := Exec(l, op, limit);
            && l'.store.project.version == l.store.project.version + 1
            && NotedLast(l.store.feed, l'.store.feed, i, op.user, l'.store.project.version, op.stamp.at,
                         op.stamp.insertedAt)
  {
    var since := op.stamp.at - EDIT_SESSION;
    match OpenSession(l.store.feed, op.user, since)
    case Some(k) => i := k;
    case None => i := |l.store.feed|;
  }

  /** Entries only grow: none is dropped, reattributed or cut short. */
  ghost predicate EntryGrows(e: Edit, e': Edit) {
    e'.actor == e.actor && e'.fromVersion == e.fromVersion && e'.openedAt == e.openedAt && e.toVersion <= e'.toVersion
  }

  ghost predicate FeedGrows(feed: seq<Edit>, feed': seq<Edit>) {
    |feed| <= |feed'| && forall i :: 0 <= i < |feed| ==> EntryGrows(feed[i], feed'[i])
  }

  lemma ExecGrowsFeed(l: Ledger, op: Op, limit: nat)
    requires Timely(l, op) && FeedSound(l)
    ensures FeedGrows(l.store.feed, Exec(l, op, limit).store.feed)
  {
    if op.Save? { var i := SaveIsNoted(l, op, limit); }
  }

  lemma {:induction false} ReplayGrowsFeed(l: Ledger, ops: seq<Op>, limit: nat)
    requires FeedSound(l) && TimelyLog(l, ops, limit)
    ensures FeedGrows(l.store.feed, Replay(l, ops, limit).store.feed)
    decreases |ops|
  {
    if ops != [] {
      ExecGrowsFeed(l, ops[0], limit);
      if ops[0].Save? { SaveKeepsFeed(l, ops[0], limit); }
      ReplayGrowsFeed(Exec(l, ops[0], limit), ops[1..], limit);
    }
  }

  lemma {:induction false} TimelySplits(l: Ledger, ops: seq<Op>, i: nat, limit: nat)
    requires TimelyLog(l, ops, limit) && i <= |ops|
    ensures TimelyLog(l, ops[..i], limit) && TimelyLog(At(l, ops, i, limit), ops[i..], limit)
    decreases i
  {
    if i == 0 {
      assert ops[..0] == [] && ops[0..] == ops;
    } else {
      var l1, rest := Exec(l, ops[0], limit), ops[1..];
      TimelySplits(l1, rest, i - 1, limit);
      assert ops[..i][0] == ops[0] && ops[..i][1..] == rest[..i - 1] && ops[i..] == rest[i - 1..];
      assert At(l, ops, i, limit) == At(l1, rest, i - 1, limit);
    }
  }

  /** Over whole logs, each accepted save is in the range of an entry of its author, opened no more than ten
      minutes before it. (`FeedOk` has the ranges of one author disjoint, so it is in one only.) */
  lemma EverySaveIsNoted(l: Ledger, ops: seq<Op>, i: nat, limit: nat)
    requires Inv(l, limit) && FeedSound(l) && LegalLog(l, ops, limit) && TimelyLog(l, ops, limit)
    requires i < |ops| && ops[i].Save?
    ensures exists k :: (0 <= k < |Replay(l, ops, limit).store.feed|
                         && Notes(Replay(l, ops, limit).store.feed[k], ops[i].user,
                                  At(l, ops, i, limit).store.project.version + 1, ops[i].stamp.at))
  {
    ReplaySplits(l, ops, i, limit);
    TimelySplits(l, ops, i, limit);
    ReplayKeepsFeed(l, ops[..i], limit);
    var before := At(l, ops, i, limit);
    assert ops[i..][0] == ops[i];
    var k := SaveIsNoted(before, ops[i], limit);
    SaveKeepsFeed(before, ops[i], limit);
    ReplayGrowsFeed(Exec(before, ops[i], limit), ops[i..][1..], limit);
    assert Notes(Replay(l, ops, limit).store.feed[k], ops[i].user, before.store.project.version + 1, ops[i].stamp.at);
  }

  // ---- the project row ----

  /** The fields of the row that the last write of a kind decides, told from the log alone. */
  function LastDoc(ops: seq<Op>, doc: Doc): Doc {
    if ops == [] then doc
    else match ops[|ops| - 1]
      case Save(_, _, input, _) => input.doc
      case Restore(_, _, picked, _) => picked.doc
      case _ => LastDoc(ops[..|ops| - 1], doc)
  }

  function LastSchema(ops: seq<Op>, schema: int): int {
    if ops == [] then schema
    else match ops[|ops| - 1]
      case Save(_, _, input, _) => if input.schema.Some? then input.schema.value
          else LastSchema(ops[..|ops| - 1], schema)
      case _ => LastSchema(ops[..|ops| - 1], schema)
  }

  function LastWriter(ops: seq<Op>, writer: Option<UserId>): Option<UserId> {
    if ops == [] then writer
    else match ops[|ops| - 1]
      case Save(_, user, _, _) => Some(user)
      case Restore(_, user, _, _) => Some(user)
      case Rename(user) => Some(user)
      case _ => LastWriter(ops[..|ops| - 1], writer)
  }

  lemma ReplaySnoc(l: Ledger, ops: seq<Op>, limit: nat)
    requires LegalLog(l, ops, limit) && ops != []
    ensures var k := |ops| - 1;
            && LegalLog(l, ops[..k], limit) && Legal(Replay(l, ops[..k], limit), ops[k])
            && Replay(l, ops, limit) == Exec(Replay(l, ops[..k], limit), ops[k], limit)
  {
    var k := |ops| - 1;
    ReplaySplits(l, ops, k, limit);
    AtNext(l, ops, k, limit);
    assert ops[..k + 1] == ops;
  }

  /** After any log the row holds the document last saved or restored, with the schema version last named by a
      save, and names whoever saved, restored or renamed last. */
  lemma {:induction false} RowTellsTheLog(l: Ledger, ops: seq<Op>, limit: nat)
    requires LegalLog(l, ops, limit)
    ensures var p, was := Replay(l, ops, limit).store.project, l.store.project;
            && p.doc == LastDoc(ops, was.doc) && p.schema == LastSchema(ops, was.schema)
            && p.updatedBy == LastWriter(ops, was.updatedBy)
    decreases |ops|
  {
    if ops != [] {
      ReplaySnoc(l, ops, limit);
      RowTellsTheLog(l, ops[..|ops| - 1], limit);
    }
  }

  // ---- whose document a snapshot is ----

  /** Who wrote each version, the creator the first. */
  function Writers(creator: UserId, ops: seq<Op>): seq<UserId> {
    if ops == [] then [creator]
    else
      var rest := Writers(creator, ops[..|ops| - 1]);
      match ops[|ops| - 1]
      case Save(_, user, _, _) => rest + [user]
      case Restore(_, user, _, _) => rest + [user]
      case _ => rest
  }

  predicate WritesOnly(ops: seq<Op>) {
    forall i :: 0 <= i < |ops| ==> ops[i].Save? || ops[i].Restore? || ops[i].Refuse?
  }

  ghost predicate Credited(l: Ledger, writers: seq<UserId>) {
    && |writers| == l.store.project.version > 0 && l.store.project.updatedBy == Some(writers[|writers| - 1])
    && forall id :: id in l.store.versions ==>
         && 1 <= l.store.versions[id].version <= |writers|
         && l.store.versions[id].createdBy == writers[l.store.versions[id].version - 1]
  }

  lemma WriteCredits(l: Ledger, op: Op, writers: seq<UserId>, limit: nat)
    requires (op.Save? || op.Restore?) && Legal(l, op) && |writers| > 0 && Credited(l, writers)
    ensures Credited(Exec(l, op, limit), writers + [op.user])
  {
    var l' := Exec(l, op, limit);
    forall id | id in l'.store.versions
      ensures 1 <= l'.store.versions[id].version <= |writers|
      ensures l'.store.versions[id].createdBy == writers[l'.store.versions[id].version - 1]
    {
    }
  }

  /** In a project that was only saved and restored, every version row names the author of its document. (A
      rename also writes the row's `updated_by`, and the next snapshot then names the renamer.) */
  lemma {:induction false} SnapshotsNameTheAuthor(doc: Doc, schema: int, creator: UserId, at: Time, ops: seq<Op>,
                                                  limit: nat)
    requires LegalLog(Born(doc, schema, creator, at), ops, limit) && WritesOnly(ops)
    ensures Writers(creator, ops) != []
    ensures Credited(Replay(Born(doc, schema, creator, at), ops, limit), Writers(creator, ops))
    decreases |ops|
  {
    if ops != [] {
      var k := |ops| - 1;
      var l := Born(doc, schema, creator, at);
      ReplaySnoc(l, ops, limit);
      SnapshotsNameTheAuthor(doc, schema, creator, at, ops[..k], limit);
      if !ops[k].Refuse? { WriteCredits(Replay(l, ops[..k], limit), ops[k], Writers(creator, ops[..k]), limit); }
    }
  }

  // ---- the snapshot a save takes ----

  function Saving(tx: nat, user: UserId, input: SaveInput, id: VersionId, at: Time, later: Time,
                  order: seq<VersionId>): Op {
    Save(tx, user, input, Stamp(id, at, order, later))
  }

  /** The row under `id` is the document as it was, stamped `at`, under this name, credited to its last writer. */
  predicate HoldsBefore(l: Ledger, l': Ledger, id: VersionId, user: UserId, name: string, auto: bool, at: Time) {
    var was := l.store.project;
    && id in l'.store.versions
    && var row := l'.store.versions[id];
       && row.doc == was.doc && row.version == was.version && row.title == name && row.auto == auto
       && row.createdAt == at && row.createdBy == (if was.updatedBy.Some? then was.updatedBy.value else user)
  }

  /** A save asked for a snapshot, by flag or by a name, keeps what it replaces: a named one always, an automatic
      one, however the database orders equal times, exactly if fewer automatic rows than the limit are as
      new. Nothing is kept of an empty document or by a save that did not ask. */
  lemma SaveKeepsWhatItReplaces(l: Ledger, tx: nat, user: UserId, input: SaveInput, id: VersionId, at: Time,
                                later: Time,
                                limit: nat)
    requires id !in l.store.versions && (input.base.None? || input.base.value == l.store.project.version)
    ensures (forall order :: Legal(l, Saving(tx, user, input, id, at, later, order)) ==>
                               id in Exec(l, Saving(tx, user, input, id, at, later, order), limit).store.versions)
            <==> (&& !l.store.project.doc.Empty()
                  && (input.snapshot || (input.title.Some? && input.title.value != ""))
                  && (input.title.Some? || |NoOlder(l.store.versions, at)| < limit))
    ensures forall order ::
              var l' := Exec(l, Saving(tx, user, input, id, at, later, order), limit);
              Legal(l, Saving(tx, user, input, id, at, later, order)) && id in l'.store.versions ==>
                HoldsBefore(l, l', id, user, if input.title.Some? then input.title.value else "", input.title.None?, at)
  {
    var p := l.store.project;
    var row := SnapshotRow(p, user, TitleOf(input), input.title.None?, at);
    var staged := l.store.versions[id := row];
    if p.doc.Empty() || !TakesSnapshot(input) {
      var op := Saving(tx, user, input, id, at, later, []);
      assert Legal(l, op) && id !in Exec(l, op, limit).store.versions;
    } else if input.title.Some? {
      forall order | Legal(l, Saving(tx, user, input, id, at, later, order))
        ensures id in Exec(l, Saving(tx, user, input, id, at, later, order), limit).store.versions
      {
      }
    } else {
      StagedAhead(l.store.versions, id, row);
      assert IsAuto(staged, id);
      if |NoOlder(l.store.versions, at)| < limit {
        forall order | Legal(l, Saving(tx, user, input, id, at, later, order))
          ensures id in Exec(l, Saving(tx, user, input, id, at, later, order), limit).store.versions
        {
          var i :| 0 <= i < |order| && order[i] == id;
          ListedAhead(staged, order, i);
          StagedSurvives(l, Saving(tx, user, input, id, at, later, order), i, limit);
        }
      } else {
        var order := TiesFirst(staged, id);
        var i := |NoOlder(l.store.versions, at)|;
        assert order[i] == id;
        StagedSurvives(l, Saving(tx, user, input, id, at, later, order), i, limit);
        assert Legal(l, Saving(tx, user, input, id, at, later, order));
      }
    }
  }

  lemma StagedSurvives(l: Ledger, op: Op, i: nat, limit: nat)
    requires op.Save? && op.input.title.None? && TakesSnapshot(op.input) && !l.store.project.doc.Empty()
    requires Legal(l, op) && i < |op.stamp.order| && op.stamp.order[i] == op.stamp.id
    ensures op.stamp.id in Exec(l, op, limit).store.versions <==> i < limit
  {
    var id, order := op.stamp.id, op.stamp.order;
    var staged := l.store.versions[id := SnapshotRow(l.store.project, op.user, "", true, op.stamp.at)];
    var drop := SnapshotDrops(l.store.project, true, order, limit);
    assert Exec(l, op, limit).store.versions == staged - drop;
    if i >= limit { assert order[i] in drop; }
  }

  // ---- the counts ----

  /** In every state of every log the stored counts are the lengths of the document's two lists, nothing counting as
      none where the document has no list. */
  lemma CountsAreLengths(l: Ledger, ops: seq<Op>, limit: nat)
    requires Inv(l, limit) && LegalLog(l, ops, limit)
    ensures var p := Replay(l, ops, limit).store.project;
            && p.screens == (if p.doc.screens.Items? then p.doc.screens.length else 0)
            && p.modules == (if p.doc.modules.Items? then p.doc.modules.length else 0)
  {
    ReplayKeeps(l, ops, limit);
  }
}
