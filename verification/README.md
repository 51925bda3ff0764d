# Collaborative project service: a verified model

The service lets several people edit one versioned document at once, through several workers. Four state
machines carry it, and this project models each and proves what holds over all of its runs:

1. **The document protocol.** Saves, restores and named snapshots run interleaved, split at their awaits,
   with only the project's row lock between them (`SaveProtocol`). Every interleaving refines an atomic log
   (`Ledger`), and the laws of that log (`LedgerLaws`, `WriteLaws`, `RequestLaws`) then hold of the stored rows. The browser hook is a
   second machine (`Hook`, `HookLaws`); `EndToEnd` composes any number of hooks with the service over a network that
   loses, delays, reorders and repeats messages, and says exactly what a save may overwrite.
   `BlindOverwrite` is a run in which it overwrites a document its client never saw.
2. **The fan-out hub.** One worker's rooms, deliveries and reaping (`Delivery`, `Hub`, `HubLaws`, `Rosters`); many workers and a bus
   against one worker holding every socket (`Cluster`); the end of every cascade (`Cascade`); who may be
   listed as present (`Presence`); the receive loop's revalidation deadline (`Revalidation`).
3. **Sessions.** Sign-in, rotation, sign-out, "sign out everywhere", reset links, the denylist and its purge
   (`Sessions`, `SessionLaws`, `TokenLaws`, `AuthStore`), and the failed sign-in counter (`Lockout`).
4. **Membership.** Accounts, invitations, roles, leaving, and the three ways the code asks who belongs
   (`Membership`, `MembershipLaws`, `RoleLaws`, `MembershipStore`).

The protocols, the sessions, the lockout and the memberships are machines: a state datatype, a `Step` datatype, an
`Enabled` guard and a `Next` function; a run is a sequence of steps. What the source updates in place is also a
class. The methods of `ProjectStore`, `Collaboration`, `AuthStore` and `MembershipStore` are proved to do what
their machine's functions say. Those of `CollabHub` are proved against the functions of `Delivery`, which fix one
worker's behaviour by which sends fail; `HubInCluster` shows that a broadcast, a join, a departure and an eviction so fixed are
runs of the many-worker machine `Cluster`, and `HubInCascade` that its broadcasts, replays and departures are runs of
`Cascade`. `Presence` is a separate, finer machine for what handlers do at once: no method is tied to a run of it.

## Where the code and its comments differ

The model follows the code.

- `save_doc` commits and then re-reads the row without a lock (app/modules/projects/service.py:392-393), so an
  acknowledgement may name a later version than the one this save wrote; `SaveProtocol.AckCountsLaterWrites` says by
  how much. `EndToEnd.OverwritesWhatWasNamed` holds of the code as it is: a save overwrites what was delivered to its
  client or written by it, or else a version that such a late acknowledgement named. `EndToEnd.NextSaveIsBlindExactly`
  is the exact condition, in version numbers the client has;
  `BlindOverwrite.UnfaithfulRefreshOverwritesBlindly` is a run that meets it, and `EndToEnd.NoBlindOverwrite` what
  holds when acknowledgements are never late.
- "Completing one reset closes the whole window" (app/modules/auth/service.py:466) is not so for links sent in
  the same whole second: `SessionLaws.ResetLeavesThisSecond` is the exact condition.
- "So restoring is itself undoable" (app/modules/projects/service.py:780) holds exactly when there was a document
  to lose and fewer automatic rows than the limit are stamped at the restore's time or later
  (`LedgerLaws.RestoreIsUndoable`); `LedgerLaws.TieLosesTheWayBack` loses it with one save and one restore.
- `_deliver_local` speaks of one roster afterwards (app/modules/collab/hub.py:287). The roster's own broadcast may
  find more sockets dead, and each such round sends another. The bus copies go out innermost first, so the last one
  is the room as it is exactly when nobody on the hash died on a roster (`Delivery.LastOnTheBus`,
  `Delivery.OldRosterSeenLast`).

- `disconnect_user` takes a socket off the presence hash and out of the room, and only then, two broadcasts later,
  closes it (app/modules/collab/hub.py:165-170). A ping handled in between lists it again
  (app/modules/collab/router.py:162-168), so it shows as present with no socket in any room until its handler's own
  `leave`, which then does change the hash: `Presence.PingRelistsTheEvicted`. `Presence.SecondLeaveChangesExactly` says
  when a second leave changes anything.

## Model

| member | source | states |
|---|---|---|
| SaveProtocol.Refines | app/modules/projects/service.py:283-301 | for every interleaving of access, load, lock, check, write, commit, refresh and abort steps, the operations in the order they took effect form a legal atomic log whose replay is the stored row, version rows and feed |
| SaveProtocol.AtMostOneSaveWins | app/modules/projects/service.py:356-368 | of two saves naming the same base, in any interleaving, at most one ever commits |
| SaveProtocol.ReachableStoresAreLogged | app/modules/projects/service.py:727-738 | every reachable store satisfies the log invariants (counts, cap, version rows exact, those taken without the lock included), whatever the clocks read, and the feed's when they never went back; its version is the first one plus the accepted writes |
| SaveProtocol.AckCountsLaterWrites | app/modules/projects/service.py:392-394 | the version a save is acknowledged with is the one it wrote plus the number of writes committed before its refresh |
| SaveProtocol.WroteStays | app/modules/projects/service.py:392-394 | what a request wrote is never changed by later steps |
| RequestLaws.LogServesRequests | app/modules/projects/service.py:338-394 | over every interleaving, each operation of the log is what its request asked: same person, document, base and label |
| RequestLaws.CommittedExactlyOnce | app/modules/projects/service.py:392 | a request that committed is in the log once, any other not at all |
| RequestLaws.RestoreWritesItsRow | app/modules/projects/service.py:775-782 | a restore writes the document of the very row it was asked for, as that row stood during the run |
| RequestLaws.LockIsHeldExactly | app/modules/projects/service.py:283-301 | over every run the row lock is held exactly by the request between its reload and its commit, refusal or abort |
| Ledger.BornIsSound | app/modules/projects/service.py:151-164 | a new project satisfies the invariants, with counts in step with its document |
| Ledger.PruneKeeps | app/modules/projects/service.py:707-724 | pruning leaves min(limit, all) automatic rows, none older than any row removed, and every named row |
| Ledger.RecordEditKeeps | app/modules/projects/service.py:85-124 | coalescing keeps entries of one person disjoint, increasing and opened over ten minutes apart, none counting more saves than the versions it spans |
| WriteLaws.SaveIsNoted | app/modules/projects/service.py:85-124 | an accepted save is in an entry of its author that ends at the version just made and was opened at most ten minutes before: the open one, one save more, or a new one; no other entry changes |
| WriteLaws.EverySaveIsNoted | app/modules/projects/service.py:85-124 | over whole logs, the version each accepted save made lies in the range of an entry of its author opened at most ten minutes before it |
| WriteLaws.RowTellsTheLog | app/modules/projects/service.py:379-384 | after any log the row holds the document last saved or restored, the schema version last named, and names whoever saved, restored or renamed last |
| WriteLaws.SaveKeepsWhatItReplaces | app/modules/projects/service.py:370-377 | a save asked for a snapshot keeps the document it replaces, with its version, label, time and last writer: a labelled one always, an automatic one iff fewer automatic rows than the limit are as new; else nothing |
| WriteLaws.SnapshotsNameTheAuthor | app/modules/projects/service.py:690-695 | in a project only saved and restored, every version row credits the author of its document |
| WriteLaws.CountsAreLengths | app/modules/projects/service.py:130-145 | in every state of every log the stored counts are the lengths of the document's lists, none where it has no list |
| Ledger.ExecKeeps | app/modules/projects/service.py:338-394 | each operation keeps, with no assumption on clocks: version equals history length, counts match, version rows are the document at the version they record, the cap, and that what is kept is at least as new as all ever pruned |
| Ledger.ReplayKeeps | app/modules/projects/service.py:775-796 | the same over whole logs of saves, restores, named snapshots, refusals and renames |
| Ledger.ReplayKeepsFeed | app/modules/projects/service.py:85-124 | over whole logs whose clock never goes back, the feed keeps its shape |
| LedgerLaws.SaveReplacesItsBase | app/modules/projects/service.py:356-380 | an accepted save with base b found version b, replaced exactly that document and made version b + 1 with its own |
| LedgerLaws.OneWinnerPerBase | app/modules/projects/service.py:356-368 | no two accepted saves of a log name the same base |
| LedgerLaws.VersionCountsWrites | app/modules/projects/service.py:379-380 | the version is the initial one plus the accepted saves and restores |
| LedgerLaws.FeedCountsSaves | app/modules/projects/service.py:99-124 | per person, the edits over the feed grow by exactly the accepted saves: coalescing loses none |
| LedgerLaws.NamedSurvive | app/modules/projects/service.py:707-724 | a named snapshot outlives every later operation unchanged |
| LedgerLaws.RestoreIsUndoable | app/modules/projects/service.py:775-785 | the "Before restore" row is kept, for every order the database may list equal times in, iff the document was non-empty and fewer automatic rows than the limit are stamped at the restore's time or later |
| LedgerLaws.UndoBringsBack | app/modules/projects/service.py:775-785 | restoring the kept row brings back document and counts |
| LedgerLaws.TieLosesTheWayBack | app/modules/projects/service.py:714-724 | from a new project, one save and one restore in one microsecond with a limit of one: the restore deletes its own way back |
| ProjectStore.ProjectStore.PruneAutoVersions | app/modules/projects/service.py:707-724 | the deletion loop removes exactly the rows past the newest limit; named rows stay |
| ProjectStore.ProjectStore.TakeSnapshot | app/modules/projects/service.py:674-704 | nothing for an empty document, else one row holding the document before the write, credited to its last writer, then pruning if automatic |
| ProjectStore.ProjectStore.NoteEdit | app/modules/projects/service.py:85-124 | extends the newest open entry of this person or opens one, as the log's feed function says |
| ProjectStore.ProjectStore.SaveDoc | app/modules/projects/service.py:338-394 | refused with nothing changed iff a base was named and is stale; otherwise commits exactly the change the log records |
| ProjectStore.ProjectStore.RestoreVersion | app/modules/projects/service.py:775-796 | refused iff the version is missing; otherwise commits exactly the log's restore change |
| ProjectStore.ProjectStore.SaveVersion | app/modules/projects/service.py:727-738 | refused iff the document is empty; otherwise adds one named row of the document at its version |
| Hook.EmittedFrame | docs/frontend/collab/use-collaboration.ts:311-358 | over any event sequence, a sent frame carries the latest queued document; its base is the version on display at the batch's first `sendDoc` that found one, else at the flush, and is never missing |
| Hook.MeaningHolds | docs/frontend/collab/use-collaboration.ts:389-447 | what the three refs mean after any run: last version named, latest queued document, base of the open batch |
| HookLaws.FrameGoesOutExactly | docs/frontend/collab/use-collaboration.ts:299-416 | over every event sequence, a frame goes out iff the socket is up and takes it, and a document is queued for immediate sending, or the timer fires on a queue, or a greeting finds a queue with no base or with the base it names |
| HookLaws.QueueEndsExactly | docs/frontend/collab/use-collaboration.ts:404-416 | a queued document is given up only to a frame or to a greeting naming another version than its base |
| HookLaws.OnlyDocumentsAreQueued | docs/frontend/collab/use-collaboration.ts:339-358 | nothing but `sendDoc` queues |
| Hook.Collaboration.Handle | docs/frontend/collab/use-collaboration.ts:311-447 | on every event the refs change, and frames go out, as the machine says |
| Hook.Collaboration.FlushDoc | docs/frontend/collab/use-collaboration.ts:311-337 | refs and sent frames change as the machine's flush says; a frame not taken stays queued |
| Hook.Collaboration.SendDoc | docs/frontend/collab/use-collaboration.ts:339-358 | queues the document, keeps the batch's first base, flushes at once if asked |
| Hook.Collaboration.SettleHello | docs/frontend/collab/use-collaboration.ts:404-416 | after a greeting, a queued save based on another version is dropped, any other is flushed |
| EndToEnd.OverwritesWhatWasNamed | app/modules/collab/router.py:223-327 | over every run, with any number of hooks and an unreliable network: when a socket save commits, its base is the version it replaces, and that document was delivered to the client at that version or written by it, or the version was named to it by the acknowledgement of its own earlier save with another base than the version before |
| EndToEnd.NoBlindOverwrite | app/modules/projects/service.py:356-393 | if the refreshes that answer clients read what was committed, the first two cases are the only ones |
| EndToEnd.NextSaveIsBlindExactly | docs/frontend/collab/use-collaboration.ts:311-358 | a hook that is up, idle and at the stored version v can take its next document to the commit, and that overwrites blindly iff no message brought it the document of v and no save of its own based on v - 1 was accepted; then v came from a late acknowledgement |
| EndToEnd.BlindByNumbers | app/modules/collab/router.py:318-327 | what a client was shown and has written can be told from version numbers alone |
| EndToEnd.AnswersReach | app/modules/collab/router.py:307-326 | an answered save is acknowledged to its sender under the version read, and that version's document goes to everyone who listens |
| EndToEnd.RefusalsAndGreetingsTell | app/modules/collab/router.py:290-303 | a refusal and a greeting bring the stored document under the stored version |
| EndToEnd.SocketSavesAreFrames | app/modules/collab/router.py:233-246 | a socket's save is a frame its client's hook sent: same document, same base, no label |
| BlindOverwrite.UnfaithfulRefreshOverwritesBlindly | app/modules/projects/service.py:392-393 | a concrete run in which the refresh reads a later version and the client's next save overwrites a document it never saw |
| Rosters.CollapseLaw | app/modules/collab/hub.py:383-393 | one row per person present, with their number of sockets and the details of their first one, and nobody else |
| Rosters.CollapseEntries | app/modules/collab/hub.py:383-393 | the loop computes that collapse |
| Delivery.DeliverLaws | app/modules/collab/hub.py:258-295 | for any pattern of dying sockets: exactly those whose send failed are removed, each survivor has the frame once (the excluded one not) and each roster, at most one roster a dead socket; the last roster, sent iff somebody died, is the collapse of what is left; what goes on the bus, in order |
| Delivery.LastOnTheBus | app/modules/collab/hub.py:286-295 | the last roster on the bus is the room as it is iff nobody listed in the hash died after the first round |
| Delivery.OldRosterSeenLast | app/modules/collab/hub.py:286-295 | two sockets, the second dying on the roster about the first: an empty room, and a last bus copy that lists the second |
| Delivery.NestedRemoved | app/modules/collab/hub.py:268-295 | a round's own dead and those of its nested roster broadcast add up to exactly who was removed |
| Delivery.AnnounceLaws | app/modules/collab/hub.py:102-116 | of a join or departure: everyone else who stays hears the news and then the roster, each followed by what its dead caused; the roster is the room after the first; the order on the bus |
| Delivery.EvictLaws | app/modules/collab/hub.py:162-171 | evicting a person removes every socket of theirs on the list, counts them, and publishes relays only |
| HubLaws.JoinLaws | app/modules/collab/hub.py:93-117 | afterwards the room holds the newcomer and, with Redis, the hash its entry, besides exactly those who were there and did not die; the greeting is the roster of the hash, or of the room, after the first notice, and names the newcomer if it is still there |
| HubLaws.LeaveSettles | app/modules/collab/hub.py:119-144 | afterwards neither room nor hash lists the leaver or anyone new, and of the others exactly the living |
| HubLaws.EvictSettles | app/modules/collab/hub.py:162-171 | afterwards none of the person's sockets is in the room or on the hash, and nobody new is |
| HubLaws.LastRosterTells | app/modules/collab/hub.py:286-295 | the last roster a delivery sends names, once each and with their sockets counted, exactly the people of the surviving room, or of the hash less its dead |
| Delivery.CollapseCountsAll | app/modules/collab/hub.py:383-393 | the connections over a roster sum to the entries it was collapsed from |
| Hub.CollabHub.OfferAll | app/modules/collab/hub.py:261-267 | each socket of the room but the excluded one is offered the frame once; those whose send failed are returned and got nothing |
| Hub.CollabHub.Reap | app/modules/collab/hub.py:268-285 | exactly the dead leave the hash and the room; an emptied room is dropped |
| Hub.CollabHub.DeliverLocal | app/modules/collab/hub.py:258-295 | ends within room-size depth for any pattern of dying sockets, with the state and rosters the delivery function gives for the sends that failed, and so all its laws |
| Hub.CollabHub.Broadcast | app/modules/collab/hub.py:246-256 | the same, then one copy on the bus after everything the delivery itself published |
| Hub.CollabHub.PresenceSnapshot | app/modules/collab/hub.py:178-215 | the collapse of the shared hash, or of this worker's room without Redis |
| Hub.CollabHub.Join | app/modules/collab/hub.py:93-117 | registers and records the socket, subscribes for the first one of a room so that every stored room's channel is listened to, and announces it; room and hash then hold it and exactly the living of those there before, and the greeting names it |
| Hub.CollabHub.Leave | app/modules/collab/hub.py:119-144 | strikes the socket from hash and room and announces that; nobody new is listed, and of the others exactly the living |
| Hub.CollabHub.DisconnectUser | app/modules/collab/hub.py:146-176 | the departures of all sockets of that person in room order, none of whom is left, then the revocation on the bus, only for a request made on this worker |
| HubInCluster.CastRuns | app/modules/collab/hub.py:246-295 | every broadcast of the hub, whatever sends fail, is a run of the cluster machine: the same sockets are left, each has its share of the frame and the rosters, and the posts made are those, each published when there is Redis |
| HubInCluster.JoinRuns | app/modules/collab/hub.py:93-117 | joining is a run: a seat, the subscription if it is the worker's first for the project, and two broadcasts that exclude the newcomer |
| HubInCluster.LeaveRuns | app/modules/collab/hub.py:119-144 | leaving, a first or a second time, is a run: the seat given up and two broadcasts |
| HubInCluster.EvictRuns | app/modules/collab/hub.py:162-171 | evicting a person is a run of departures, whatever other deliveries are under way, and leaves none of the listed sockets |
| HubInCascade.CastRuns | app/modules/collab/hub.py:246-295 | every broadcast of the hub is a run of the cascade machine: its dead leave, and its copy and one for each roster go to every subscribed worker |
| HubInCascade.ReplayRuns | app/modules/collab/hub.py:364-366 | so is a replay, which puts only its rosters on the bus |
| HubInCascade.LeaveRuns | app/modules/collab/hub.py:119-144 | so is a departure, with both its notices |
| HubInCascade.HearingLists | app/modules/collab/hub.py:162-165 | hearing a revocation lists exactly that person's sockets of this worker for departure |
| Cluster.AtMostOnce | app/modules/collab/hub.py:246-265 | whatever is lost, fails, joins or leaves, no broadcast reaches a socket twice or reaches the excluded one, and one made since a socket joined reaches it only if a single worker would deliver it |
| Cluster.ExactlyOnce | app/modules/collab/hub.py:299-366 | for a registered socket whose sends succeed, whose worker is subscribed and whose bus loses nothing, settled traffic equals what the single worker delivers, broadcast by broadcast |
| Cluster.RunKeepsOrder | app/modules/collab/hub.py:337-366 | over every run: copies held plus copies waiting on the bus never exceed one, and cross workers only once published |
| Cluster.RunMirrors | app/modules/collab/hub.py:258-267 | the single worker's deliveries, read off the cluster's own history, at every point of every run |
| Cascade.StepLowersRank | app/modules/collab/hub.py:258-295 | every reap, roster, relay, departure and eviction lowers a lexicographic rank, under any interleaving of delivery loops |
| Cascade.CascadeEnds | app/modules/collab/hub.py:146-176 | with nobody joining, no client sending and no new request, no sequence of steps goes on for ever |
| Cascade.EvictionsAreNotRepublished | app/modules/collab/hub.py:355-363 | over any run with requests, the revocations acted on are among those already waiting and one per subscribed worker per request |
| Cascade.WithoutTheFlagItNeverEnds | app/modules/collab/hub.py:360-362 | if a worker disconnected a person it was told about without `local_only`, two workers would answer each other for ever |
| Presence.NobodyListedAfterTheEnd | app/modules/collab/hub.py:93-144 | under any interleaving of join, ping, eviction, reaping and leave, ids in a room or hash belong to handlers that have not ended, no stored room is empty, and an unstruck socket is in the hash exactly while live |
| Presence.ListedExactly | app/modules/collab/hub.py:217-239 | over every run, a socket is on the hash iff it was recorded or pinged and not taken off since, and in the room iff it was registered and not taken out since |
| Presence.SecondLeaveChangesExactly | app/modules/collab/hub.py:119-126 | under any interleaving, once a socket was taken off the hash and out of the room, a later leave changes the hash iff its handler recorded or pinged since, and never the rooms |
| Presence.OwnLeaveIsLast | app/modules/collab/router.py:219-220 | after the handler's own leave nothing lists the socket again, so no later leave changes anything |
| Presence.PingRelistsTheEvicted | app/modules/collab/router.py:162-168 | a run in which an evicted socket pings: it is in no room, on the hash, and its own leave changes the hash |
| Presence.RunKeepsTidy | app/modules/collab/hub.py:217-239 | the invariant behind it, over all runs |
| Revalidation.ReceiveLoop | app/modules/collab/router.py:141-156 | the loop dispatches exactly the frames the specification says and closes iff a check failed |
| Revalidation.DispatchedTurn | app/modules/collab/router.py:155-157 | a frame is dispatched iff it came and no check up to its turn has failed |
| Revalidation.ArmedBy | app/modules/collab/router.py:141-153 | the deadline is REVALIDATE_SECONDS after the answer of the last check, or after the handshake if there was none |
| Revalidation.NoStaleDispatch | app/modules/collab/router.py:141-153 | every dispatched frame has a check that passed in the same turn, or one (or the handshake) less than REVALIDATE_SECONDS before |
| Revalidation.RevokedIsNoticed | app/modules/collab/router.py:149-152 | nothing is dispatched from the first failing check on |
| Revalidation.TrafficNeverMovesTheDeadline | app/modules/collab/router.py:141-153 | removing any turn that ended before the deadline leaves every later deadline as it was |
| SessionLaws.RefusedForGood | app/modules/auth/service.py:663-665 | a token expired or denylisted is refused in every later state, purges included |
| SessionLaws.RevokedSessionIsOut | app/modules/auth/service.py:626-645 | whenever a session row is revoked, its access token is expired or denylisted and its refresh token unusable, then and ever after |
| SessionLaws.AtMostOneExchange | app/modules/auth/service.py:569-583 | for any interleaving of refreshes presenting one token, at most one gets a new pair |
| SessionLaws.RotationHandsOver | app/modules/auth/service.py:271-287 | after a rotation the old pair is refused and the new pair works iff the account is active |
| TokenLaws.TokensLiveTheirTime | app/core/security.py:60-91 | over every run, an access, refresh or reset token is refused once its own kind's lifetime has passed, to the second, and accepted before unless denied or its account inactive |
| TokenLaws.StepMints | app/modules/auth/service.py:55-81 | what a step mints is stamped now, lives its own kind's lifetime, and is for the person who signed in, rotated or asked for a link |
| TokenLaws.NewRowsCarryOn | app/modules/auth/service.py:65-76 | a new row starts a sign-in or carries on the one it was rotated from, and records the pair minted with it |
| TokenLaws.SignOutEndsThatRow | app/modules/auth/service.py:296-324 | sign-out ends the row the presented refresh token was issued with, expired or not, or else the access token's own |
| TokenLaws.SignOutSparesOthers | app/modules/auth/service.py:296-324 | and no other row |
| TokenLaws.RevokedDeviceIsOut | app/modules/auth/service.py:358-364 | revoking a device stamps that row now, and no other, and its pair is refused for good |
| TokenLaws.SwitchingOff | app/modules/auth/dependencies.py:75-78 | an account switched off has nothing accepted; switched on, exactly what is neither expired nor denied; others do not notice |
| TokenLaws.InitialOnlyForIssued | app/modules/auth/service.py:389-415 | an issued password may be replaced by that route until its owner chooses one by any route, and not again until another is issued |
| TokenLaws.PasswordsAreDated | app/modules/auth/service.py:418-428 | each route that sets a password dates it now, and nothing else does |
| TokenLaws.PurgeIsHarmless | app/modules/auth/service.py:663-665 | a purge drops exactly the entries expired before now and lets nobody in |
| TokenLaws.SweepStampsExactly | app/modules/auth/service.py:612-623 | "sign out everywhere" stamps now exactly the account's rows neither expired nor stamped nor kept; other rows stay |
| TokenLaws.LockGrantsExactly | app/modules/auth/service.py:268-271 | under the lock a refresh gets the row iff it is neither revoked nor expired, else is refused |
| TokenLaws.RotationDenies | app/modules/auth/service.py:280-281 | the refresh token a rotation was paid with is on the denylist |
| TokenLaws.SignOutDenies | app/modules/auth/service.py:294-304 | each token that still decoded at a sign-out is on the denylist, whatever row it has |
| TokenLaws.SignOutStampsOnce | app/modules/auth/service.py:316-320 | the row a sign-out ends keeps the time it was first revoked |
| TokenLaws.NothingExpiredIsDenied | app/modules/auth/service.py:640-645 | no step denylists an expired token, other than a rotation that outlasted its refresh token |
| TokenLaws.ActiveAsAsked | app/modules/admin/service.py:230-235 | an account is active as it was created, and only an operator's switch changes that |
| SessionLaws.OneLivePairPerSignIn | app/modules/auth/service.py:263-287 | a sign-in, through all its rotations, has at most one accepted access token and one usable refresh token, of the same session |
| SessionLaws.SignOutEndsTheDevice | app/modules/auth/service.py:290-327 | after sign-out the presented access token, and the pair of the session found, are refused for good; with no refresh token the session found is the access token's own |
| SessionLaws.SweepLeavesTheKept | app/modules/auth/service.py:602-623 | after "sign out everywhere" a token gets in iff it did before and belongs to another account or to the kept session |
| SessionLaws.SweptStayOut | app/modules/auth/service.py:602-623 | and of this account's tokens minted until then, no later state lets in others |
| SessionLaws.ResetLeavesThisSecond | app/modules/auth/service.py:454-485 | after a reset, a link of this account works iff it did before, is not the one used, and was sent in the same whole second |
| SessionLaws.ResetClosesTheWindow | app/modules/auth/service.py:454-485 | the used link and every link of an earlier second are refused in all later states, and nobody signed in before stays signed in |
| SessionLaws.SameSecondLinkStillWorks | app/modules/auth/service.py:467-477 | of two links sent and one followed within a second, the other still sets a password |
| SessionLaws.Reachable | app/core/config.py:49-50 | from an empty store, with access tokens living no longer than refresh tokens, every reachable state satisfies the invariant the laws assume |
| SessionLaws.RunKeeps | app/modules/auth/service.py:55-81 | every run keeps: rows record their pair, revoked rows have refused access tokens, denylist expiries are the tokens' own, one unrevoked row a sign-in; and only grows |
| Sessions.StepKeeps | app/modules/auth/service.py:251-287 | each step keeps the invariant, drops or un-revokes no row, and lets a denied id go only once expired |
| Sessions.WholeSeconds | app/core/security.py:60-69 | a claim's time is the last whole second not after the clock's |
| AuthStore.AuthStore.RevokeAllSessions | app/modules/auth/service.py:602-623 | the loop over the account's unexpired rows, in any order, ends with the sweep's state and counts the rows it stamped |
| AuthStore.AuthStore.RevokeSessionAccess | app/modules/auth/service.py:626-645 | afterwards the row's access token is expired or denylisted, and no other id's entry, nor one that was there, has changed |
| AuthStore.AuthStore.RefreshTokens | app/modules/auth/service.py:251-287 | succeeds iff the token is usable, with the effect of an uninterrupted start, lock and rotate; otherwise changes nothing |
| AuthStore.AuthStore.Logout | app/modules/auth/service.py:290-327 | does the machine's sign-out step |
| AuthStore.AuthStore.ResetPassword | app/modules/auth/service.py:454-485 | succeeds iff the link works, with the machine's step; otherwise changes nothing |
| Lockout.EveryFailureCounts | app/modules/auth/service.py:207-245 | under any interleaving, failures since the last reset are MAX_FAILED_LOGINS times the locks plus the stored count; with no write open, locks and count are quotient and remainder |
| Lockout.LockedIsTurnedAway | app/modules/auth/service.py:184-185 | from a lock until the configured time has passed no sign-in starts, unless the lock is cleared |
| Lockout.LockLifts | app/modules/auth/service.py:228-236 | once that time has passed with no further lock a sign-in is let through |
| Lockout.ClearingClears | app/modules/auth/service.py:195-196 | a good password or a reset clears the count and the lock its request saw |
| Membership.StepKeeps | app/modules/projects/service.py:448-502 | every call keeps: a row's account holds its address and has proved it (or founded the project), one row per address and project, an owner with an account per project |
| Membership.InviteShape | app/modules/projects/service.py:457-479 | an invitation is refused iff the address has a row, and otherwise adds one, with an account iff one has proved the address |
| MembershipLaws.EveryProjectIsOwned | app/modules/projects/service.py:620-638 | through every run, each project has an OWNER row with an account |
| MembershipLaws.LastOwnerExactly | app/modules/projects/service.py:587-594 | removal is refused for ownership iff the row is the only owner with an account |
| MembershipLaws.OneRowPerAccount | app/modules/projects/service.py:434-445 | at most one row of a project matches an account |
| MembershipLaws.ViewsAgree | app/modules/projects/access.py:65-115 | the project list, `role_map` and `resolve_access` at VIEWER agree on visibility and role |
| MembershipLaws.UnconfirmedReachesOnlyItsOwn | app/modules/projects/service.py:167-178 | an account that never confirmed its address matches only rows of projects it created |
| MembershipLaws.AccessExactly | app/modules/projects/access.py:102-115 | access succeeds iff the project is visible and the member's role high enough; anyone else gets the answer of a project that does not exist |
| RoleLaws.RolesLetIn | app/core/constants.py:36-54 | a viewer's request lets in every member, a commenter's all but viewers, an editor's editors and owners, an owner's owners; every other member is told the role is too low |
| RoleLaws.InvitationGives | app/modules/projects/service.py:457-479 | the address has one row with that role in the inviter's name; an account that proved it is a member with it, any other sees what it saw |
| RoleLaws.NewProjectRoles | app/modules/projects/service.py:167-203 | a new project's creator owns it and all others are invited as editors, in the creator's name |
| RoleLaws.LeavingTakesTheLeaver | app/modules/projects/service.py:611-617 | leaving removes the leaver's own row, or is refused to the only owner or a stranger; nothing else changes |
| RoleLaws.NewAccountSees | app/modules/auth/service.py:116-134 | a new account sees no project, or, having proved its address, exactly those the address is on, by rows that now carry its id |
| RoleLaws.ConfirmingSees | app/modules/auth/service.py:510-518 | confirming an address brings exactly the projects it is on, by rows that now carry the account |
| RoleLaws.BinHides | app/modules/projects/access.py:53-62 | a project in the bin answers as one that does not exist |
| RoleLaws.UnbinShows | app/modules/projects/service.py:418-428 | taken out again it is seen by its members |
| MembershipLaws.RoleChangeExactly | app/modules/projects/service.py:553-568 | refused iff it is one's own row or the only owner with an account is demoted; otherwise that row alone has the new role |
| MembershipLaws.ClaimingGrantsNothing | app/modules/projects/service.py:641-663 | claiming changes no account's access; afterwards the account's own rows carry its id |
| MembershipLaws.LazyClaimGrantsNothing | app/modules/projects/access.py:89-98 | nor does filling in the account on first sight: the matching rows and their roles stay, and the row now carries the account |
| MembershipLaws.RemovalEndsAccess | app/modules/projects/service.py:587-617 | once its row is removed, an account gets "not found"; everybody else's rows are as they were |
| MembershipLaws.NewProjectRoster | app/modules/projects/service.py:151-206 | a new project has its creator's owner row, one row for each other address given, and no more |
| MembershipStore.MembershipStore.ClaimInvites | app/modules/projects/service.py:641-663 | the loop attaches exactly the pending rows of the address and counts them |
| MembershipStore.MembershipStore.FindMembership | app/modules/projects/access.py:65-99 | finds the account's row iff it has one, and fills in the account |
| MembershipStore.MembershipStore.ResolveAccess | app/modules/projects/access.py:102-115 | not found, role too low or the row, as the machine says; the claim stays even when the role is too low |
| MembershipStore.MembershipStore.InviteMember | app/modules/projects/service.py:448-502 | answers and writes as the machine's invitation |
| MembershipStore.MembershipStore.UpdateMemberRole | app/modules/projects/service.py:553-584 | answers and writes as the machine's role change: not one's own, not the last owner's demotion |
| MembershipStore.MembershipStore.RemoveMember | app/modules/projects/service.py:587-608 | answers and writes as the machine's removal |
| MembershipStore.MembershipStore.CreateProject | app/modules/projects/service.py:151-206 | writes project and owner row, then invites each address not seen yet, skipping refusals |

## Left out

Assumptions the results rest on:

- The feed's shape (`Ledger.RecordEditKeeps`, `Ledger.ReplayKeepsFeed`) assumes that clocks never go back; the other log invariants do not. One write reads the clock once for its snapshot and edit window and once for a new feed entry. Sessions and the lockout read one clock that never goes back. Fresh ids are fresh.
- `EndToEnd` assumes that each hook serves one project. `EndToEnd.NoBlindOverwrite` alone assumes that the refresh answering a client reads the row just committed.
- `Sessions` assumes access tokens live no longer than refresh tokens and rows always carry an access token id; rows written before that column existed are not modelled.
- Sweeping all sessions of an account (sign out everywhere, reset, first password) is one transaction with no rotation of that account holding a row; the race between a refresh and "sign out everywhere" is not modelled.
- Each membership call is one transaction: two owners leaving at the same moment are not modelled.
- In `Hub` the Redis calls succeed and the hash lists entries in the order they were added; `Cluster` and `Cascade` let relays be lost, and `Cascade` revocations too.
- Feed rows of `record_edit` are the only ones of their type; `activity` is always on, as at every call site.

Contracts weaker than the source:

- Hub.CollabHub.PresenceSnapshot: does not fall back to this worker's room when Redis is there but the hash cannot be read, nor skip entries that are not JSON, because `Hub` lets every Redis call succeed.
- AuthStore.AuthStore.RefreshTokens: one uninterrupted request; interleaved ones are steps of `Sessions`, not of the class.
- ProjectStore.ProjectStore.SaveDoc: the class holds one locked project; interleaving is in `SaveProtocol`.
- MembershipStore.MembershipStore.CreateProject: addresses are taken as already normalised, here and everywhere.

Not modelled:

- Document contents and `validate_doc`: a document is its two counted fields and an opaque rest.
- Presence expiry: the time limit is on the whole hash, so a dead worker's entries can outlive it.
- Password hashing and strength, the wall for issued passwords, missing credential rows, email confirmation tokens and invitation tokens.
- The authorship column of snapshots beyond what one snapshot records: renaming also writes `updated_by`.
- Routing, response envelopes, CORS, mail, audit rows, logging, configuration, migrations, seeding and the admin pages: input and output.
- Comments, pagination, the rate limiter, global roles, public links and listings would only add easy members.
- Cursor and selection frames, and the debounce timer's delay: a timer may fire at any time.
- `last_opened_at`, `joined_at`, `invited_at` and other display timestamps.
