/** The project row, the rows kept beside it, and what one write does to them. */
module Projects {
  import opened Wrappers

  type UserId = nat
  type VersionId = nat
  type Time = int // microseconds

  /** One save within this long of the entry's opening extends the entry. */
  const EDIT_SESSION: Time := 10 * 60 * 1_000_000

  /** The value a document holds under one of the two keys the server counts. */
  datatype Field = Absent | Items(length: nat) | Scalar

  /** A JSON document: the two counted keys, and everything the server never looks at. */
  datatype Doc = Doc(screens: Field, modules: Field, rest: seq<int>) {
    predicate Empty() {
      this == Doc(Absent, Absent, [])
    }
  }

  function CountField(f: Field): nat {
    match f
    case Items(n) => n
    case _ => 0
  }

  datatype Project = Project(doc: Doc, version: nat, screens: nat, modules: nat,
                             schema: int, updatedBy: Option<UserId>)
  {
    /** The denormalised counts describe the document beside them. */
    predicate CountsMatch() {
      screens == CountField(doc.screens) && modules == CountField(doc.modules)
    }
  }

  datatype Version = Version(title: string, doc: Doc, version: nat, auto: bool,
                             createdAt: Time, createdBy: UserId)

  /** A PROJECT_UPDATED entry of the activity feed. */
  datatype Edit = Edit(actor: UserId, edits: nat, fromVersion: int, toVersion: int, openedAt: Time)

  datatype Store = Store(project: Project, versions: map<VersionId, Version>, feed: seq<Edit>)

  datatype SaveInput = SaveInput(doc: Doc, base: Option<int>, schema: Option<int>,
                                 title: Option<string>, snapshot: bool)

  /** What the surroundings contribute to one write: a fresh id, two clock readings, and the
      order in which the database lists the automatic snapshots when asked newest first. */
  datatype Stamp = Stamp(id: VersionId, at: Time, order: seq<VersionId>, insertedAt: Time)

  // ---- the write, as a change to be committed ----

  /** Rows staged by one transaction. `added` has at most one row. */
  datatype Change = Change(project: Project, added: map<VersionId, Version>,
                           dropped: set<VersionId>, feed: seq<Edit>)

  function Commit(s: Store, c: Change): Store {
    Store(c.project, (s.versions + c.added) - c.dropped, c.feed)
  }

  predicate BaseAccepted(base: Option<int>, version: nat) {
    base.None? || base.value == version
  }

  predicate TakesSnapshot(input: SaveInput) {
    input.snapshot || (input.title.Some? && input.title.value != "")
  }

  /** The row `_snapshot` writes: the document as it stands before the write. */
  function SnapshotRow(p: Project, user: UserId, title: string, auto: bool, at: Time): Version {
    Version(title, p.doc, p.version, auto, at, if p.updatedBy.Some? then p.updatedBy.value else user)
  }

  function SnapshotAdds(p: Project, row: Version, id: VersionId): map<VersionId, Version> {
    if p.doc.Empty() then map[] else map[id := row]
  }

  function SnapshotDrops(p: Project, auto: bool, order: seq<VersionId>, limit: nat): set<VersionId> {
    if p.doc.Empty() || !auto || |order| <= limit then {} else set i | limit <= i < |order| :: order[i]
  }

  function TitleOf(input: SaveInput): string {
    if input.title.Some? then input.title.value else ""
  }

  function Written(p: Project, doc: Doc, schema: Option<int>, user: UserId): Project {
    Project(doc, p.version + 1, CountField(doc.screens), CountField(doc.modules),
            if schema.Some? then schema.value else p.schema, Some(user))
  }

  function SaveChange(p: Project, feed: seq<Edit>, user: UserId, input: SaveInput, stamp: Stamp, limit: nat): Change {
    var auto := input.title.None?;
    var row := SnapshotRow(p, user, TitleOf(input), auto, stamp.at);
    Change(Written(p, input.doc, input.schema, user),
           if TakesSnapshot(input) then SnapshotAdds(p, row, stamp.id) else map[],
           if TakesSnapshot(input) then SnapshotDrops(p, auto, stamp.order, limit) else {},
           RecordEdit(feed, user, p.version + 1, stamp.at, stamp.insertedAt))
  }

  const BEFORE_RESTORE := "Before restore"

  function RestoreChange(p: Project, feed: seq<Edit>, user: UserId, doc: Doc, stamp: Stamp, limit: nat): Change {
    var row := SnapshotRow(p, user, BEFORE_RESTORE, true, stamp.at);
    Change(Written(p, doc, None, user), SnapshotAdds(p, row, stamp.id),
           SnapshotDrops(p, true, stamp.order, limit), feed)
  }

  // ---- the two database answers a write depends on ----

  predicate IsAuto(versions: map<VersionId, Version>, id: VersionId) {
    id in versions && versions[id].auto
  }

  function AutoIds(versions: map<VersionId, Version>): set<VersionId> {
    set id | id in versions && versions[id].auto
  }

  /** `order` lists exactly the automatic snapshots, newest first. Rows with equal timestamps may
      come in either order: the query leaves that to the database. */
  ghost predicate NewestFirst(versions: map<VersionId, Version>, order: seq<VersionId>) {
    && (forall i, j :: 0 <= i < j < |order| ==> order[i] != order[j])
    && (forall i :: 0 <= i < |order| ==> IsAuto(versions, order[i]))
    && (forall id :: IsAuto(versions, id) ==> id in order)
    && (forall i, j :: 0 <= i < j < |order| ==> versions[order[i]].createdAt >= versions[order[j]].createdAt)
  }

  predicate OpenFor(e: Edit, actor: UserId, since: Time) {
    e.actor == actor && e.openedAt >= since
  }

  /** The newest entry of `actor` opened at or after `since`, if any. */
  function OpenSession(feed: seq<Edit>, actor: UserId, since: Time): (r: Option<nat>)
    ensures r.Some? ==> r.value < |feed| && OpenFor(feed[r.value], actor, since)
    ensures r.Some? ==> forall i :: 0 <= i < |feed| && OpenFor(feed[i], actor, since) ==>
            feed[i].openedAt <= feed[r.value].openedAt
    ensures r.None? ==> forall i :: 0 <= i < |feed| ==> !OpenFor(feed[i], actor, since)
  {
    if feed == [] then None
    else
      var k := |feed| - 1;
      var best := OpenSession(feed[..k], actor, since);
      if OpenFor(feed[k], actor, since) && (best.None? || feed[best.value].openedAt <= feed[k].openedAt)
      then Some(k) else best
  }

  function RecordEdit(feed: seq<Edit>, actor: UserId, toVersion: int, at: Time, insertedAt: Time): seq<Edit> {
    match OpenSession(feed, actor, at - EDIT_SESSION)
    case Some(i) => feed[i := feed[i].(edits := feed[i].edits + 1, toVersion := toVersion)]
    case None => feed + [Edit(actor, 1, toVersion - 1, toVersion, insertedAt)]
  }
}
