/** The document service as the code runs it on one locked project: rows updated in place, each
    operation proved against the change the atomic log records for it. */
module ProjectStore {
  import opened Wrappers
  import opened Projects
  import opened Ledger

  datatype SaveError = StaleDocument(current: nat, sent: int)
  datatype VersionError = VersionNotFound | NothingToSnapshot

  class ProjectStore {
    var project: Project
    var versions: map<VersionId, Version>
    var feed: seq<Edit>
    const limit: nat

    ghost function State(): Store
      reads this
    {
      Store(project, versions, feed)
    }

    constructor (doc: Doc, schema: int, creator: UserId, limit: nat)
      ensures State() == Born(doc, schema, creator, 0).store && this.limit == limit
    {
      project := Project(doc, 1, 0, 0, schema, Some(creator));
      versions, feed := map[], [];
      this.limit := limit;
      new;
      SyncCounts();
    }

    method SyncCounts()
      modifies this`project
      ensures project == old(project).(screens := CountField(project.doc.screens),
                                       modules := CountField(project.doc.modules))
      ensures project.CountsMatch()
    {
      project := project.(screens := CountField(project.doc.screens), modules := CountField(project.doc.modules));
    }

    /** Deletes every automatic snapshot past the newest `limit`, and nothing else. */
    method PruneAutoVersions(order: seq<VersionId>)
      requires NewestFirst(versions, order)
      modifies this`versions
      ensures versions == old(versions) - if |order| <= limit then {} else set i | limit <= i < |order| :: order[i]
      ensures |AutoIds(versions)| == if |order| <= limit then |order| else limit
      ensures forall kept, lost :: IsAuto(versions, kept) && IsAuto(old(versions), lost) && lost !in versions ==>
                old(versions)[lost].createdAt <= versions[kept].createdAt
      ensures forall id :: id in old(versions) && !old(versions)[id].auto ==>
                id in versions && versions[id] == old(versions)[id]
    {
      var i := limit;
      ghost var gone: set<VersionId> := {};
      while i < |order|
        invariant limit <= i
        invariant i <= |order| || gone == {}
        invariant versions == old(versions) - gone
        invariant forall id :: id in gone <==> exists k :: limit <= k < i && k < |order| && order[k] == id
      {
        if order[i] in versions {
          versions := versions - {order[i]};
        }
        gone := gone + {order[i]};
        i := i + 1;
      }
      ghost var drop := if |order| <= limit then {} else set k | limit <= k < |order| :: order[k];
      assert gone == drop;
      PruneKeeps(old(versions), order, limit, drop);
      assert forall id :: IsAuto(old(versions), id) && id !in versions ==> id in drop;
    }

    /** Stores the document as it stands before a write. Skipped while the document is empty. */
    method TakeSnapshot(user: UserId, title: string, auto: bool, stamp: Stamp) returns (row: Option<Version>)
      requires StampOk(State(), true, SnapshotRow(project, user, title, auto, stamp.at), stamp)
      modifies this`versions
      ensures row.None? <==> project.doc.Empty()
      ensures row.Some? ==> row.value == SnapshotRow(project, user, title, auto, stamp.at)
      ensures var snapshot := SnapshotRow(project, user, title, auto, stamp.at);
              versions == (old(versions) + SnapshotAdds(project, snapshot, stamp.id))
                          - SnapshotDrops(project, auto, stamp.order, limit)
    {
      if project.doc.Empty() {
        row := None;
        return;
      }
      var author := if project.updatedBy.Some? then project.updatedBy.value else user;
      var version := Version(title, project.doc, project.version, auto, stamp.at, author);
      versions := versions[stamp.id := version];
      assert versions == old(versions) + map[stamp.id := version];
      if auto {
        PruneAutoVersions(stamp.order);
      }
      row := Some(version);
    }

    /** Notes that this person saved: extends their open entry, or opens a new one. */
    method NoteEdit(user: UserId, toVersion: int, at: Time, insertedAt: Time)
      modifies this`feed
      ensures feed == RecordEdit(old(feed), user, toVersion, at, insertedAt)
    {
      var found := OpenSession(feed, user, at - EDIT_SESSION);
      if found.Some? {
        var entry := feed[found.value];
        feed := feed[found.value := entry.(edits := entry.edits + 1, toVersion := toVersion)];
      } else {
        feed := feed + [Edit(user, 1, toVersion - 1, toVersion, insertedAt)];
      }
    }

    /** Refused, with nothing changed, exactly when a base was named and is not the stored version;
        otherwise the change the atomic log records for this save. */
    method SaveDoc(user: UserId, input: SaveInput, stamp: Stamp) returns (r: Result<Project, SaveError>)
      requires SaveStampOk(State(), user, input, stamp)
      modifies this`project, this`versions, this`feed
      ensures r.Failure? <==> !BaseAccepted(input.base, old(project).version)
      ensures r.Failure? ==> State() == old(State()) && r.error == StaleDocument(project.version, input.base.value)
      ensures r.Success? ==> r.value == project
      ensures r.Success? ==>
                State() == Commit(old(State()), SaveChange(old(project), old(feed), user, input, stamp, limit))
    {
      if input.base.Some? && input.base.value != project.version {
        return Failure(StaleDocument(project.version, input.base.value));
      }
      if TakesSnapshot(input) {
        var _ := TakeSnapshot(user, TitleOf(input), input.title.None?, stamp);
      } else {
        assert versions == (versions + map[]) - {};
      }
      project := project.(doc := input.doc, version := project.version + 1);
      if input.schema.Some? {
        project := project.(schema := input.schema.value);
      }
      project := project.(updatedBy := Some(user));
      SyncCounts();
      NoteEdit(user, project.version, stamp.at, stamp.insertedAt);
      r := Success(project);
    }

    /** The live document is snapshotted first, then replaced by the version's. */
    method RestoreVersion(user: UserId, id: VersionId, stamp: Stamp) returns (r: Result<Project, VersionError>)
      requires RestoreStampOk(State(), user, stamp)
      modifies this`project, this`versions
      ensures r.Failure? <==> id !in old(versions)
      ensures r.Failure? ==> State() == old(State()) && r.error == VersionNotFound
      ensures r.Success? ==> r.value == project
      ensures r.Success? ==>
                var doc := old(versions)[id].doc;
                State() == Commit(old(State()), RestoreChange(old(project), old(feed), user, doc, stamp, limit))
    {
      if id !in versions {
        return Failure(VersionNotFound);
      }
      var version := versions[id];
      var _ := TakeSnapshot(user, BEFORE_RESTORE, true, stamp);
      project := project.(doc := version.doc, version := project.version + 1, updatedBy := Some(user));
      SyncCounts();
      r := Success(project);
    }

    /** A named snapshot of the document the request read; refused while that is empty. */
    method SaveVersion(user: UserId, title: string, id: VersionId, at: Time) returns (r: Result<Version, VersionError>)
      requires id !in versions
      modifies this`versions
      ensures r.Failure? <==> project.doc.Empty()
      ensures r.Failure? ==> versions == old(versions) && r.error == NothingToSnapshot
      ensures r.Success? ==> versions == old(versions)[id := r.value] && !r.value.auto
      ensures r.Success? ==> r.value.doc == project.doc && r.value.version == project.version
      ensures r.Success? ==> r.value.title == (if title == "" then "Manual save" else title) && r.value.createdAt == at
      ensures r.Success? ==> r.value.createdBy == if project.updatedBy.Some? then project.updatedBy.value else user
    {
      var row := TakeSnapshot(user, if title == "" then "Manual save" else title, false, Stamp(id, at, [], at));
      if row.None? {
        return Failure(NothingToSnapshot);
      }
      r := Success(row.value);
    }
  }
}
