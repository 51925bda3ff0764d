/** Who is in a room, one row per person. */
module Rosters {
  import opened Wrappers

  type ConnId = nat
  type UserId = nat
  type ProjectId = nat

  /** How one socket is described: its person, itself, and the labels nobody computes with. */
  datatype Entry = Entry(user: UserId, connection: ConnId, labels: int)

  datatype Person = Person(entry: Entry, connections: nat)

  function RowOf(people: seq<Person>, user: UserId): (r: Option<nat>)
    ensures r.Some? ==> r.value < |people| && people[r.value].entry.user == user
    ensures r.None? ==> forall i :: 0 <= i < |people| ==> people[i].entry.user != user
  {
    if people == [] then None
    else if people[|people| - 1].entry.user == user then Some(|people| - 1)
    else RowOf(people[..|people| - 1], user)
  }

  function AddEntry(people: seq<Person>, e: Entry): seq<Person> {
    match RowOf(people, e.user)
    case Some(i) => people[i := people[i].(connections := people[i].connections + 1)]
    case None => people + [Person(e, 1)]
  }

  function Collapse(entries: seq<Entry>): seq<Person> {
    if entries == [] then [] else AddEntry(Collapse(entries[..|entries| - 1]), entries[|entries| - 1])
  }

  /** `_collapse` as the code runs it. */
  method CollapseEntries(entries: seq<Entry>) returns (people: seq<Person>)
    ensures people == Collapse(entries)
  {
    people := [];
    for i := 0 to |entries|
      invariant people == Collapse(entries[..i])
    {
      assert entries[..i + 1][..i] == entries[..i];
      var row := RowOf(people, entries[i].user);
      if row.None? {
        people := people + [Person(entries[i], 1)];
      } else {
        people := people[row.value := people[row.value].(connections := people[row.value].connections + 1)];
      }
    }
    assert entries[..|entries|] == entries;
  }

  function Tabs(entries: seq<Entry>, user: UserId): nat {
    if entries == [] then 0
    else Tabs(entries[..|entries| - 1], user) + if entries[|entries| - 1].user == user then 1 else 0
  }

  /** `e` is the first entry of its person. */
  ghost predicate FirstOf(entries: seq<Entry>, e: Entry) {
    exists i :: (0 <= i < |entries| && entries[i] == e && forall j :: 0 <= j < i ==> entries[j].user != e.user)
  }

  lemma FirstOfSnoc(entries: seq<Entry>, e: Entry)
    ensures forall f :: FirstOf(entries, f) ==> FirstOf(entries + [e], f)
    ensures Tabs(entries, e.user) == 0 ==> FirstOf(entries + [e], e)
    ensures forall u :: Tabs(entries + [e], u) == Tabs(entries, u) + if e.user == u then 1 else 0
  {
    var all := entries + [e];
    assert all[..|all| - 1] == entries;
    forall f | FirstOf(entries, f) ensures FirstOf(all, f) {
      var i :| (0 <= i < |entries| && entries[i] == f && forall j :: 0 <= j < i ==> entries[j].user != f.user);
      assert all[i] == f;
    }
    if Tabs(entries, e.user) == 0 {
      NoTabs(entries, e.user);
      assert all[|entries|] == e;
    }
  }

  lemma {:induction false} NoTabs(entries: seq<Entry>, user: UserId)
    ensures Tabs(entries, user) == 0 <==> forall j :: 0 <= j < |entries| ==> entries[j].user != user
  {
    if entries != [] {
      NoTabs(entries[..|entries| - 1], user);
    }
  }

  /** One row per person present, counting that person's sockets, and showing the person as their
      first socket described them. */
  ghost predicate RosterOf(people: seq<Person>, entries: seq<Entry>) {
    && (forall i, j :: 0 <= i < j < |people| ==> people[i].entry.user != people[j].entry.user)
    && (forall i :: 0 <= i < |people| ==> people[i].connections == Tabs(entries, people[i].entry.user) >= 1)
    && (forall i :: 0 <= i < |people| ==> FirstOf(entries, people[i].entry))
    && (forall u :: Tabs(entries, u) >= 1 ==> RowOf(people, u).Some?)
  }

  lemma AddKeepsRoster(people: seq<Person>, entries: seq<Entry>, e: Entry)
    requires RosterOf(people, entries)
    ensures RosterOf(AddEntry(people, e), entries + [e])
  {
    var after, all := AddEntry(people, e), entries + [e];
    FirstOfSnoc(entries, e);
    forall u | Tabs(all, u) >= 1 ensures RowOf(after, u).Some? {
      SameRows(people, e, u);
    }
    forall i | 0 <= i < |after|
      ensures after[i].connections == Tabs(all, after[i].entry.user) >= 1 && FirstOf(all, after[i].entry)
    {
      if i < |people| {
        assert FirstOf(entries, people[i].entry);
        assert after[i].entry == people[i].entry;
      }
    }
  }

  lemma {:induction false} CollapseLaw(entries: seq<Entry>)
    ensures RosterOf(Collapse(entries), entries)
  {
    if entries != [] {
      CollapseLaw(entries[..|entries| - 1]);
      AddKeepsRoster(Collapse(entries[..|entries| - 1]), entries[..|entries| - 1], entries[|entries| - 1]);
      assert entries == entries[..|entries| - 1] + [entries[|entries| - 1]];
    }
  }

  lemma SameRows(people: seq<Person>, e: Entry, u: UserId)
    ensures RowOf(AddEntry(people, e), u).Some? <==> RowOf(people, u).Some? || u == e.user
  {
    var after := AddEntry(people, e);
    if RowOf(people, u).Some? {
      var i := RowOf(people, u).value;
      assert after[i].entry.user == u;
    }
    if u == e.user && RowOf(people, u).None? {
      assert after[|people|].entry.user == u;
    }
    if RowOf(after, u).Some? && u != e.user {
      var i := RowOf(after, u).value;
      assert i < |people| && people[i].entry.user == u;
    }
  }
}
