# SSHDesk: verified model of the configuration store, sharing, SSH import/export and tunnels

SSHDesk is a desktop agent that keeps SSH keys, hosts with jump chains, tunnels and web links, shares
parts of that configuration with other machines, reads and writes OpenSSH configurations, and runs the
tunnels. This project models that behaviour in Dafny and proves what the program relies on but does
not check by itself.

The model has one data type for the stored state (`Model.State`) and follows the program's parts:

- **Tunnels** (`Tunnel`, `TunnelRun`, `TunnelObjects`, `Outages`). One function per critical section and per
  effect outside the lock; a step system over all entries, threads, stopping calls and connections;
  and the manager's objects with in-place methods tied to those functions. Connecting, dialling and
  keepalives succeed or fail freely.
- **Sharing** (`Selecting`, `Footer`, `Sync`, `FeedSound`, `FeedLaws`, `Bundles`, `Ownership`, `Sharing`, `Team`,
  `TeamRun`, `Polls`, `LastWriter`, `Following`, `MixedRuns`, `Writers`). Selections, installers, feeds and their merge,
  the poller, and what remains after arbitrary runs.
- **Store** (`Store`, `Editing`, `EditLaws`, `Backup`, `References`, `Runs`, `OwnedRuns`). The commit check, atomic updates,
  edits, backups, and invariants over every sequence of updates.
- **SSH configurations** (`Tokens`, `Parser`, `Readings`, `Importer`, `ImportSound`, `ImportLinks`, `ImportRoutes`,
  `ImportCommits`, `WholeRoutes`, `Groups`, `Startup`, `StartupAgain`, `Completeness`, `MacExport`, `ExportLines`,
  `Blocks`, `ExportBlocks`, `ExportText`, `ExportParse`, `Forwards`, `RoundTrip`, `UserNames`). Reading,
  importing, the start-up import, writing, and the round trip.

Code that works in loops on mutable state is modelled by methods with loops on a working copy
(`Store.Draft`), each proved against a specification function; the laws are lemmas about those
functions. `Records` and `Text` hold what several parts share, and
`Checks` says what the checks of single values mean.

Results that differ from what one might expect of the program:

- The commit check never looks at identifiers. Uniqueness is kept by every update, but an installed
  bundle may bring a record with an empty identifier, and then references may dangle
  (`Store.EmptyIdEscapesValidate`, `Runs.DanglingRun`). `Runs.RunKeepsStore` says exactly when.
- A second start-up import may import more than the first when an alias is longer than 156 bytes,
  because the generated key label is then too long until another host has registered the same key
  file (`StartupAgain.SecondRun`, `StartupAgain.LongAliasImportsLater`).
- Stripping a shared executable is not idempotent on nested footers (`Footer.StripTwice`).
- An import realises a ProxyJump list as the end of the route, not always as the whole route
  (`WholeRoutes.WholeRouteExact`, `WholeRoutes.LongerRoute`).
- Deleting a shared record locally breaks ownership, and nothing else does
  (`OwnedRuns.RunKeepsOwnership`, `OwnedRuns.DeletedSharedLink`).
- A configuration survives export and import exactly when its user names are plain; one name with a
  single quotation mark can make the whole exported text unreadable (`UserNames.RoundTripExact`,
  `ExportLines.OpenQuote`).
- Exporting a configuration with a host without identifier aborts the request: the handler panics on
  the empty route and the server recovers (`RoundTrip.ExportExact`, `RoundTrip.NamelessNotExported`).

Generated identifiers are parameters and assumed fresh (non-empty, distinct, unused). Which files are
usable keys, which paths the platform accepts, which characters are printable and how patterns with
character classes match are fixed functions given as parameters. Lists are shorter than 2^63, the
largest length the program's lists can have; only the export's key numbers depend on it.

## Model

| member | source | states |
|---|---|---|
| Tunnel.WorkKeeps | internal/tunnel/manager.go:75-318 | every step of an entry's own thread (connect, install, monitor, reconnect, finish) keeps the entry invariant: running exactly when it has a connection, live context and open listener exactly when not terminal, sockets closed unless running, `done` closed exactly when the thread is over; and it accounts for every connection it gains, hands over or closes |
| Tunnel.SocketKeeps | internal/tunnel/manager.go:184-227 | accepting, refusing, forwarding and forgetting a local socket keep the entry invariant: the counter equals the number of tracked sockets, at most 128 |
| Tunnel.StopKeeps | internal/tunnel/manager.go:136-171 | a user stop, wherever the entry's thread is, leaves the entry stopped, dead and without connection, and keeps the invariant |
| TunnelRun.StepKeeps | internal/tunnel/manager.go:75-318 | every step of the whole manager, in any interleaving, keeps the system invariant and undoes nothing: dead entries stay dead, stopped ones stopped, closed connections closed, and after shutdown has begun no entry is added |
| TunnelRun.OneLive | internal/tunnel/manager.go:75-105 | at any time of any run a tunnel id has at most one live entry and live entries have distinct local ports |
| TunnelRun.ConnectionPlace | internal/tunnel/manager.go:109-160 | in every run each connection ever opened is closed, or is in exactly one place: the `conn` of one running entry or the hands of one entry's thread |
| TunnelRun.StopWins | internal/tunnel/manager.go:136-171 | an entry the user stopped reads stopped for ever, without connection or open socket, whatever connects or fails later |
| TunnelRun.CancelledStaysDown | internal/tunnel/manager.go:121-128 | an entry whose life context was cancelled is terminal for ever |
| TunnelRun.DoneOnce | internal/tunnel/manager.go:118-126 | `done` is closed at most once per entry, exactly when the entry's thread is over |
| TunnelRun.StopReturns | internal/tunnel/manager.go:161-171 | a stop returns only when the thread of the entry it stopped is over, and it stays so |
| TunnelRun.ShutdownFinal | internal/tunnel/manager.go:172-183 | after a shutdown has returned, in every continuation no entry is new, all entries are terminal, the current ones are over, and a connection that is not closed is held by the thread of an entry that had been replaced |
| TunnelRun.ReconnectAfterThree | internal/tunnel/manager.go:259-273 | an entry turns to reconnecting only when the last three keepalives went over the connection it had and all failed |
| TunnelRun.LadderPause | internal/tunnel/manager.go:280-316 | attempts to reconnect happen only with the option set, and the base pause before the n-th attempt of an outage is min(2^(n-1), 30) seconds |
| TunnelObjects.Record.Finish | internal/tunnel/manager.go:136-160 | the in-place `finish`, with its loop over the sockets, has exactly the effect of the step function and reports the connection it closes |
| TunnelObjects.Record.Install | internal/tunnel/manager.go:121-134 | a connection is installed exactly when the life context is still live; otherwise nothing changes |
| TunnelObjects.Record.TakeOut | internal/tunnel/manager.go:267-278 | the monitor takes the dead connection out and closes the tracked sockets, unless the entry was cancelled |
| TunnelObjects.Record.PutBack | internal/tunnel/manager.go:293-303 | a regained connection is put in, unless the entry was cancelled |
| TunnelObjects.Record.Admit | internal/tunnel/manager.go:190-200 | a local socket is forwarded exactly when the entry is live, running, connected and tracks fewer than 128 sockets |
| TunnelObjects.Record.Forget | internal/tunnel/manager.go:203-204 | a finished forwarder is no longer tracked or counted |
| TunnelObjects.Manager.Register | internal/tunnel/manager.go:79-105 | a start is refused during shutdown, answers for a tunnel that is up or coming up, and otherwise replaces the table entry by a fresh one, live or failed |
| TunnelObjects.Manager.Active | internal/tunnel/manager.go:62-67 | a tunnel is active exactly while its entry is live |
| TunnelObjects.Manager.BeginClose | internal/tunnel/manager.go:172-179 | a shutdown closes the manager to new starts and names every known tunnel to stop |
| TunnelObjects.Watch | internal/tunnel/manager.go:236-266 | the keepalive loop gives a connection up at the first third failure in a row, and never otherwise |
| TunnelObjects.Redial | internal/tunnel/manager.go:284-316 | the reconnect loop waits the ladder's pauses before successive attempts and ends at the first success |
| Outages.StartAnswers | internal/tunnel/manager.go:75-105 | a start of a tunnel that is not up adds a live entry with its configuration, or a failed one with the reason when the port cannot be bound; during shutdown and while the tunnel is up nothing changes; no other entry is touched |
| Outages.Forwards | internal/tunnel/manager.go:184-200 | a running tunnel forwards an accepted socket while it tracks fewer than 128 and refuses it otherwise |
| Outages.RunningServes | internal/tunnel/manager.go:106-134 | in every run a running or reconnecting tunnel has an accept loop |
| Outages.LoopGoesOn | internal/tunnel/manager.go:184-227 | while the listener is open the loop takes every client as a socket not seen before, decides, closes one it refuses and listens again; a forwarder can always close and then forget its socket |
| Outages.NeverStuck | internal/tunnel/manager.go:106-318 | a thread that is not over can always take its next step, whatever connecting, keepalives and the timer bring, and notices a cancelled context where it waits |
| Outages.OutagesSurvived | internal/tunnel/manager.go:236-316 | in every run a tunnel with automatic reconnection that has been running never fails: however many connections are lost and attempts refused, only the user ends it |
| Outages.OutageFinal | internal/tunnel/manager.go:259-283 | without automatic reconnection a tunnel that lost its connection never runs again in any run |
| Outages.OutageRun | internal/tunnel/manager.go:75-316 | a run from the start in which a tunnel comes up, misses three keepalives, is refused once, and runs again on a second connection with the first one closed |
| Outages.StepTold | internal/tunnel/manager.go:75-227 | in every step the shown error is the reason of the failure, lost connection, refused attempt or failed dial just met, is cleared when the tunnel comes up, and otherwise stays |
| Model.RouteExact | internal/model/model.go:176-192 | a route is found exactly when one exists: from a direct host within 16 hops, each host reached through the one before; it is unique and its hosts distinct |
| Model.Chain | internal/model/model.go:176-192 | the loop with its visited set returns that route, or fails exactly when there is none |
| Store.ValidateHosts | internal/database/store.go:175-189 | the host loop accepts exactly when names are distinct and every host, key reference and route is good |
| Store.Validate | internal/database/store.go:168-208 | the whole check agrees with the declarative one |
| Store.ValidResolves | internal/database/store.go:168-208 | with unique, non-empty identifiers a passed check means every key, jump, tunnel and host reference resolves and every host has a route |
| Store.EmptyIdEscapesValidate | internal/database/store.go:168-208 | without a non-empty identifier it does not: a host with id "" and a dangling jump passes |
| Store.ResolvedExact | internal/database/store.go:168-208 | with unique ids a passed check means every reference resolves exactly when no host with id "" names a jump host that is not stored: the one reference the check can miss |
| Store.Database.Finish | internal/database/store.go:226-258 | an update commits a checked state or changes nothing |
| Store.Replace | internal/database/store.go:293-304 | replaces the first record with the id, appends for an empty id, fails otherwise |
| Store.Delete | internal/database/store.go:305-312 | removes the first record with the id, fails otherwise |
| Store.DeletedFind | internal/database/store.go:305-312 | after a deletion the id is gone and every other lookup is unchanged |
| Store.ReplacedUnique | internal/database/store.go:293-304 | replacing keeps ids unique when an existing record keeps its id and a new one is fresh |
| Selecting.PickKeys | internal/provision/bundle.go:38-48 | the key loop returns the chosen keys in order, each once, or fails exactly when one is not stored |
| Selecting.CheckJumps | internal/provision/bundle.go:59-70 | accepts exactly when every hop of every selected host's route uses a chosen key |
| Selecting.Select | internal/provision/bundle.go:35-84 | the selection loops compute the declared selection, including the closing check |
| Selecting.SelectionSucceeds | internal/provision/bundle.go:35-84 | on a valid source with unique ids a selection succeeds exactly when the chosen keys exist, there is at least one, and every jump key is chosen: the closing check cannot fail |
| Selecting.SelectionClosed | internal/provision/bundle.go:52-83 | a selection holds exactly the chosen keys, all hosts using them with the same route as in the source, all their tunnels and all their services |
| Selecting.SelectionAgain | internal/provision/bundle.go:35-84 | selecting again with the same ids is the identity |
| Selecting.SelectionOrder | internal/provision/bundle.go:33-84 | a selection lists its keys in the order chosen and its hosts, tunnels and links in the order stored |
| Footer.NoWrap | internal/provision/bundle.go:124-139 | on every file the 64-bit length and the size subtractions stay in range |
| Footer.RoundTrip | internal/provision/bundle.go:118-181 | for any accepted file and payload of 1 to 16 MiB, and only then, reading the written file returns the payload on the original base |
| Footer.FormatExact | internal/provision/bundle.go:118-161 | byte by byte: a file reads as a payload on a base exactly when it is the base, the payload of 1 to 16 MiB, its length in eight bytes with the least significant first, and the word SSHDesk-Team-Bundle-v1 |
| Footer.UnsharedExact | internal/provision/bundle.go:118-140 | a file is its own base without payload exactly when it does not end with the word or is shorter than a footer |
| Footer.OnlyLastPayloadRemains | internal/provision/bundle.go:117-161 | after any number of re-shares the base is the original one and only the last payload remains |
| Footer.StripTwice | internal/provision/bundle.go:118-140 | stripping is final exactly when the base does not itself end with the magic word |
| Footer.NestedFooters | internal/provision/bundle.go:118-140 | a file on which stripping twice removes more than stripping once |
| Sync.SyncRecords | internal/provision/sync.go:177-202 | accepts exactly when incoming ids are good, distinct, and stored ones owned; the result overwrites in place and appends in order |
| Sync.Track | internal/provision/sync.go:163-175 | the items of a feed are exactly its records, all current |
| Sync.ApplyFeed | internal/provision/sync.go:205-254 | the in-place merge (key paths kept, records synced, links retargeted, items retained) succeeds exactly when the feed is acceptable and leaves exactly the declared state |
| Sync.Retarget | internal/provision/sync.go:234-249 | kept links get the port of their tunnel; fails exactly when a kept link has no tunnel or no parsable URL |
| FeedSound.HostLookup | internal/provision/sync.go:219-221 | after a feed each host is the feed's version if it has one, else the stored one |
| FeedSound.TunnelLookup | internal/provision/sync.go:222-224 | the same for tunnels |
| FeedSound.KeyLookup | internal/provision/sync.go:208-218 | the same for keys, under the path the key file has on this machine |
| FeedSound.ServiceLookup | internal/provision/sync.go:225-249 | the same for services, kept ones following the new port of their tunnel |
| FeedSound.FeedKeepsIds | internal/provision/sync.go:177-254 | a feed keeps ids unique and non-empty |
| FeedSound.FeedLeavesOthers | internal/provision/sync.go:205-254 | records outside the subscription, other subscriptions and settings are unchanged, and no record is deleted or moved |
| FeedSound.FeedAcyclic | internal/provision/sync.go:205-254 | after a feed every jump walk ends, within 32 hosts: no jump cycle arises |
| FeedSound.FeedCheck | internal/provision/sync.go:205-254 | after a successful merge the closing check fails exactly for a duplicate host name, a route over 16 hops, or a service outside the subscription on a shared tunnel whose port changed |
| FeedLaws.FeedAccepted | internal/provision/sync.go:177-254 | a feed is accepted exactly when each of its keys is stored and owned, each other record is new or owned by this subscription, ids are well-formed and distinct, and every owned link it no longer lists has a readable address and a stored or listed tunnel |
| FeedLaws.DroppedLinkFollows | internal/provision/sync.go:234-249 | a link that left the feed keeps everything, scheme and path included, and opens the local port its tunnel has now |
| FeedLaws.OtherLinksStay | internal/provision/sync.go:205-254 | links the feed lists are stored as listed and links of others stay as they are |
| FeedLaws.ItemsMarked | internal/provision/sync.go:228-253 | after a feed the subscription has every item it had or the feed lists, current exactly when listed; the time is noted, the error cleared, and address, pause and all other subscriptions stay |
| FeedLaws.JoinedExact | internal/provision/bundle.go:183-199 | joining one kind of record succeeds exactly when records with the same id are equal, and appends the new ones in the bundle's order |
| Bundles.Merge | internal/provision/bundle.go:183-199 | the merge loop appends new records and fails exactly on a differing record with a stored id |
| Bundles.JoinedMeaning | internal/provision/bundle.go:183-199 | a merge keeps stored records as an unchanged prefix, contains every incoming record, nothing else, and unique ids |
| Bundles.JoinedIds | internal/provision/bundle.go:183-199 | a merge keeps ids non-empty exactly when the incoming ids are: it never checks them |
| Bundles.RegisterSource | internal/provision/sync.go:328-342 | refreshes the address of a known source, fails when another subscription owns an incoming item before it is found, else appends a subscription |
| Bundles.Install | internal/provision/bundle.go:312-350 | the state part of an installation, both the re-download of a followed master and the merge, leaves exactly the declared state or fails |
| EditLaws.InstalledAddress | internal/provision/bundle.go:312-350 | installing a bundle of a followed master stores the address in the bundle, the time and the new items, keeps the pause, and changes no other subscription |
| EditLaws.InstalledNew | internal/provision/sync.go:328-342 | the first bundle of a master adds one subscription with its address and exactly its records, none of which any other subscription owns |
| EditLaws.RegisteredAddress | internal/provision/sync.go:328-342 | a source that is already known gets the new address and nothing else of the team changes |
| Ownership.FeedKeepsOwnership | internal/provision/sync.go:205-254 | a feed keeps every owned item stored and owned once |
| Ownership.RegisteredOwnership | internal/provision/sync.go:328-342 | registering a new source appends a subscription whose items nobody owned and keeps public keys distinct |
| Ownership.InstallKeepsOwnership | internal/provision/bundle.go:312-350 | an installation keeps ownership disjoint and backed by records, and ids unique |
| OwnedRuns.EditOwnership | internal/web/server.go:185-316 | a local edit keeps ownership exactly when it deletes no shared record |
| OwnedRuns.DeletedSharedLink | internal/web/server.go:285-316 | deleting a shared link is always committed and breaks ownership |
| OwnedRuns.SharedLinkLost | internal/web/server.go:285-316 | a configuration of one subscription sharing a link, its tunnel, host and key, in which that happens |
| OwnedRuns.PerformKeepsOwnership | internal/database/store.go:226-258 | an update of any kind keeps ownership exactly when it is rejected or deletes no shared record |
| OwnedRuns.RunKeepsOwnership | internal/provision/sync.go:177-342 | in every run from the empty store, owned items are stored, have one owner and public keys are distinct throughout exactly when no committed update deletes a shared record |
| Sharing.SignFeed | internal/provision/sync.go:70-105 | computes the feed of the keys still stored, with the owner's paths replaced |
| Sharing.FeedScope | internal/provision/sync.go:70-118 | for every later master state a feed holds exactly the chosen keys still stored, by name and without their paths, exactly the hosts using them, exactly the tunnels on those hosts and exactly the links on those tunnels, all as the master has them now, and passes the receiver's check |
| Sharing.FeedExact | internal/provision/sync.go:70-118 | a feed can be signed exactly when every host on a chosen key is reached over hosts on chosen keys; when none of the keys is left it is the empty configuration |
| Sharing.CreatedShaped | internal/provision/bundle.go:86-115 | a created bundle lists exactly the chosen keys with their names, and with them all their hosts, tunnels and links, no source, team or settings; the material of each key is the file read at that key's path |
| Sharing.CreatedExact | internal/provision/bundle.go:86-115 | a bundle can be created exactly when a key is chosen, all chosen keys are stored with readable files, and every host on one of them is reached over hosts on chosen keys |
| Sharing.ShapedAccepted | internal/provision/bundle.go:226-243 | a bundle of that shape passes the version, count and configuration checks of an installation and has material for every key |
| Sharing.AcceptedExact | internal/provision/bundle.go:226-243 | with distinct key ids those checks accept exactly such bundles: another version, a surplus key file or a missing one is refused |
| Sharing.RefreshBundle | internal/provision/sync.go:287-325 | computes the refreshed bundle for the master's current state |
| Sharing.RefreshScope | internal/provision/sync.go:287-325 | a refreshed bundle keeps the shape, lists exactly the keys it had that are still stored with their present names, exactly the master's hosts on them, tunnels on those and links on those, and keeps the material |
| Sharing.RefreshNeverWidens | internal/provision/sync.go:287-325 | over any sequence of master states refreshing never widens the originally chosen keys |
| Team.PollOnce | internal/web/team_sync.go:46-70 | one poll of one subscription: re-check, apply or record the error, and on a rejected update record the conflict |
| Team.TeamAction | internal/web/team_sync.go:96-118 | pause, resume and address change the first subscription with the feed id; it is found exactly when there is one, the submitted address is allowed and the result passes the check, and otherwise nothing changes |
| Polls.PollOutcome | internal/web/team_sync.go:46-70 | what one poll does to each subscription and to the records: the feed of the first matching one that is not paused and has the polled address is applied, a failed fetch leaves its message there, a rejected feed leaves the conflict text at every subscription of that source, and nothing else changes |
| Polls.PollLeavesOthers | internal/web/team_sync.go:46-70 | a poll leaves every subscription that is paused, has another address or another source as it is, except for the error text of a conflict |
| Polls.ControlsDo | internal/web/team_sync.go:96-118 | pausing, resuming and a new address change that field of the first subscription with the feed id and nothing else |
| Polls.PausedUntilResumed | internal/web/team_sync.go:31-118 | in every run, from a pause of a subscription to the next resume no feed of it is committed: its items, address and last synchronisation stay |
| Polls.OldAddressIgnored | internal/web/team_sync.go:31-118 | in every run, after its address was changed no feed fetched from the old one is committed for a subscription |
| TeamRun.OnlyStatusChanges | internal/web/team_sync.go:31-118 | every step that does not commit a feed changes no record and no item: polls change only error texts, controls only the pause flag and the address |
| TeamRun.StepKeepsSound | internal/web/team_sync.go:31-118 | every step keeps the configuration checked, ids unique and ownership disjoint; and it keeps shared links on shared tunnels, with kept ones on their tunnel's port, where they were |
| TeamRun.RunKeepsSound | internal/web/team_sync.go:31-72 | so does every run, with failed fetches, pauses, address changes and conflicts |
| LastWriter.LastWriterWins | internal/provision/sync.go:177-254 | from every checked start with unique ids: after any run each record equals its version in the last committed feed holding it (key paths local, a kept link possibly with the present port), an item is current exactly when the last committed feed of its subscription holds it, and nothing is deleted or moved |
| LastWriter.KeptLinksFollow | internal/provision/sync.go:234-249 | where shared links hang on shared tunnels and kept ones follow them at the start, every link is exactly its last version, and a kept one has the port its tunnel has now |
| MixedRuns.LocalKeeps | internal/web/server.go:185-316 | an edit that leaves shared records alone, a backup, an SSH import and a bundle without source keep the starting condition of the last-writer theorem and every shared record |
| MixedRuns.SharedLastWriter | internal/provision/sync.go:177-254 | the last-writer theorem for shared records over runs in which such local updates come between the steps of the poller |
| Writers.EveryRecordWritten | internal/provision/sync.go:177-254 | from every checked start with unique ids, after any run of edits (of shared records too), imports, backups, bundles, new subscriptions and polls, each record is what the writers of its id made of it one after the other, feeds and local edits alike (a kept link possibly with the present port), and each subscription lists what it ever shared, current exactly when its last feed holds it |
| Writers.EditWrites | internal/web/server.go:185-316 | a committed save or delete leaves of each host, key and tunnel what its submission says, and of no other anything else |
| Writers.EditLinks | internal/web/tunnel_links.go:11-47 | the same for links: saving the links of a tunnel replaces all of them, deleting a tunnel deletes them |
| Following.InstallKeepsSound | internal/provision/bundle.go:312-350 | installing a verified bundle keeps the starting condition of the last-writer theorem, and shared links on shared tunnels |
| Following.FollowersSound | internal/provision/bundle.go:201-359 | a machine that only installs verified bundles and follows feeds always satisfies both |
| Backup.MergeRecords | internal/web/backup.go:46-70 | accepts exactly when ids are good, distinct and agree with stored records; appends the new ones in order and counts them |
| Backup.MergeBackup | internal/web/backup.go:71-109 | the whole import succeeds exactly when declared and leaves the declared state and counts |
| Backup.ImportAccepts | internal/web/backup.go:71-109 | with well-formed ids and paths an import is accepted exactly when both sides agree on shared ids and the union passes the check |
| FeedLaws.ImportExact | internal/web/backup.go:71-109 | an import yields a state and counts exactly when the format and version are the known ones, every path is accepted, ids are good, distinct and agree, the result is the stored records followed by the new ones in file order with the settings asked for, the counts are what was added, and the result passes the check |
| Backup.ImportIdempotent | internal/web/backup.go:71-109 | importing the same file again adds nothing and changes nothing |
| Backup.OwnExportIsNoOp | internal/web/backup.go:33-109 | a state's own export is a no-op with zero counts exactly when its ids are ones the import accepts |
| Backup.ExportRebuilds | internal/web/backup.go:33-109 | an export imported into an empty store rebuilds every collection in order, with the full counts |
| Editing.ReplaceTunnelLinks | internal/web/tunnel_links.go:11-47 | the links of a tunnel are replaced: kept ones keep environment and description, new ones get an id, an unknown or repeated id fails |
| Editing.MakeEdit | internal/web/server.go:185-316 | each save and delete edits the working copy exactly as declared |
| EditLaws.EditExact | internal/web/server.go:185-316 | an edit of the working copy succeeds exactly when its record is new or stored, its tunnel is not active, its path is accepted, a new tunnel is not given together with an existing one, and its links can all be stored |
| EditLaws.EditStores | internal/web/server.go:185-275 | the record stored by each save, field by field, the tunnel made for a new link, and the settings; the team stays |
| EditLaws.LinkedExact | internal/web/tunnel_links.go:11-47 | replacing the links of a tunnel succeeds with exactly these links in order: a new one with a new id and its host's environment, one of this tunnel with the environment and description it had, each named once and passing the link check |
| EditLaws.LinksStored | internal/web/tunnel_links.go:11-47 | after a tunnel is saved with links the stored links are those of the other tunnels in their order followed by exactly these |
| EditLaws.ReplacedPlaces | internal/database/store.go:293-304 | a saved record takes the place of the one with its id, or the end; no other record moves |
| EditLaws.DeletedOrder | internal/database/store.go:306-314 | a deletion leaves all other records in their order |
| Runs.EditKeeps | internal/web/server.go:185-316 | every edit keeps ids unique and non-empty |
| Runs.InstallIds | internal/provision/bundle.go:312-350 | an installation keeps ids unique; joining a bundle keeps them non-empty exactly when the bundle's are |
| Runs.PerformKeeps | internal/database/store.go:226-258 | every update of any kind keeps the store checked and ids unique |
| References.JoinHangs | internal/provision/bundle.go:183-199 | joining a bundle leaves a jump dangling exactly when the bundle has a host with id "" whose jump is neither stored nor in the bundle |
| References.DeletedHangs | internal/web/server.go:285-316 | deleting a host leaves a jump dangling exactly when a host with id "" jumps to it |
| Runs.StepResolves | internal/database/store.go:226-258 | an update of any kind leaves every reference resolved exactly when it is rejected or is none of those two kinds |
| Runs.DanglingRun | internal/provision/bundle.go:312-350 | a run of one installation after which a reference dangles |
| Runs.RunKeepsStore | internal/database/store.go:168-258 | in every run from the empty store, with fresh generated ids, ids are unique in each collection; ids are non-empty unless a bundle with an empty one was joined; and every reference resolves throughout the run exactly when no committed update joined a bundle whose host with id "" jumps nowhere or deleted the jump of such a host |
| Runs.LoopbackOnly | internal/model/model.go:86-148 | after every run of updates all hosts have a known environment and kind, a port, a user name without blanks, slashes and at signs, a stored key and a whole fingerprint or none; all tunnels listen on 127.0.0.1 with ports from 1 to 65535 through a stored host; every link opens the local port of its tunnel, written out or the usual one of http or https |
| Checks.Ip6Exact | internal/model/model.go:88-101 | a text is an IPv6 address exactly when it writes eight groups, or two runs of together at most seven around one double colon, with a dotted address allowed for the last two |
| Checks.LengthLimits | internal/model/model.go:88-104 | names end at 160 bytes, addresses at 253, ids from other machines at 128 |
| Importer.AddChosen | internal/sshconfig/importer.go:34-73 | the first pass with its two tables agrees with the declared additions |
| Importer.LinkPath | internal/sshconfig/importer.go:79-105 | the inner loop with its running predecessor links a path exactly as its demands say |
| Importer.LinkChosen | internal/sshconfig/importer.go:74-106 | the second pass succeeds exactly when every hop is known and all demands can be linked |
| Importer.ApplyImport | internal/sshconfig/importer.go:32-108 | the whole in-place import succeeds exactly when declared and leaves the declared state |
| ImportSound.AddAllExact | internal/sshconfig/importer.go:38-70 | the first pass succeeds exactly when every chosen candidate can be imported and no alias repeats; existing hosts and keys are an unchanged prefix, and each key file is registered at most once more |
| ImportLinks.LinkAllExact | internal/sshconfig/importer.go:74-106 | linking succeeds exactly when no two lists demand different predecessors of a host and stored hosts already have theirs; each new host then has exactly the demanded link, or none |
| ImportRoutes.ImportAccepted | internal/sshconfig/importer.go:32-108 | an import is accepted exactly under conditions on the configuration and the stored names |
| ImportRoutes.RoutesRealised | internal/sshconfig/importer.go:74-107 | after a committed import the route of each chosen host ends with its ProxyJump list and itself, and has just those hosts exactly when the first hop is reached directly |
| ImportCommits.CommitExact | internal/sshconfig/importer.go:31-108 | an import is committed exactly when it is accepted, candidates have the right shape, every route ends within 16 hops and every new key label is usable |
| WholeRoutes.WholeRouteExact | internal/sshconfig/importer.go:74-107 | an import that can be committed makes the route of a chosen host exactly its list and itself if and only if, before the import, no stored link and no chosen list puts a host before the first hop |
| WholeRoutes.LongerRoute | internal/sshconfig/importer.go:74-107 | three hosts imported together, the first one with a one-hop list and a longer route |
| ImportCommits.ImportKeeps | internal/sshconfig/importer.go:32-108 | stored hosts and keys stay an unchanged prefix, ids stay well formed, and the stored names and key files are exactly the old ones and the imported ones |
| Groups.SurvivorsGreatest | internal/sshconfig/startup.go:76-92 | the survivors are the greatest part of the eligible hosts whose jumps stay inside it or in stored hosts |
| Groups.Eliminate | internal/sshconfig/startup.go:76-92 | the elimination loop ends at that part whatever the order of the file, and lists each dropped host once |
| Groups.Neighbors | internal/sshconfig/startup.go:93-104 | the neighbour table lists exactly the adjacent members |
| Groups.Search | internal/sshconfig/startup.go:110-123 | the breadth-first search selects exactly the connected part of its start, each member once |
| Groups.ComponentExact | internal/sshconfig/startup.go:110-123 | a connected part is the smallest set around its start without adjacent members outside |
| Groups.GroupsPartition | internal/sshconfig/startup.go:105-123 | the groups are connected parts, pairwise disjoint, and leave no member out |
| Startup.Screen | internal/sshconfig/startup.go:51-75 | the first loop counts stored hosts, collects the eligible ones and lists the others |
| Startup.RunKeeps | internal/sshconfig/startup.go:105-132 | each group is added as a whole or changes nothing: the store stays checked, with stored records in place and exactly the committed names added |
| Startup.AutoImport | internal/sshconfig/startup.go:42-134 | the whole import: the final store is that of committing the groups in order; imported, existing and skipped hosts add up to the hosts of the file, and the skipped ones are exactly those not stored afterwards |
| Startup.ImportConfig | internal/sshconfig/startup.go:30-134 | a missing or unreadable file changes nothing; otherwise the import above runs on the parsed hosts |
| Completeness.StandaloneStored | internal/sshconfig/startup.go:51-134 | nothing importable is left out: a connected part of new, usable hosts that jump only to each other or to stored hosts, and that could be committed by itself, is stored after the start-up import |
| Completeness.EligibleExact | internal/sshconfig/startup.go:51-75 | a host is eligible exactly when its name is new, its candidate is valid and well-formed, and its key file is found and usable |
| Completeness.CandidateAdded | internal/sshconfig/importer.go:40-70 | a candidate is added exactly when it is valid, its name is new and its key file is found and usable; the host has the program's defaults around its values and uses the last stored key with that file, or a new one named after it |
| StartupAgain.GroupFate | internal/sshconfig/startup.go:124-132 | whether a group is committed depends on its own lists, the hosts stored before the run, and whether its new keys get usable labels; other groups matter only for the last |
| StartupAgain.SecondRun | internal/sshconfig/startup.go:30-134 | a second run changes nothing exactly when no group left out by the first one has realisable lists and, with the keys registered by now, usable labels |
| StartupAgain.Idempotent | internal/sshconfig/startup.go:30-134 | the import is idempotent when no alias is longer than 156 bytes |
| StartupAgain.LongAliasImportsLater | internal/sshconfig/importer.go:62-65 | beyond that length it is not: two hosts sharing a key file of which the second run imports the first |
| Tokens.ReadWords | internal/sshconfig/parser.go:34-70 | the character loop splits a line into words as declared, and fails exactly on an open quote |
| Tokens.WordsSpaced | internal/sshconfig/parser.go:34-70 | plain words separated by blanks come back as they are |
| Tokens.WordsQuoted | internal/sshconfig/parser.go:34-70 | a quoted value comes back whole, whatever it holds except the quote |
| Parser.Matches | internal/sshconfig/parser.go:71-83 | an alias matches exactly when some pattern selects it and no negated pattern does |
| Parser.GlobLiteral | internal/sshconfig/parser.go:71-83 | a pattern without wildcards matches itself only |
| Readings.GlobExact | internal/sshconfig/parser.go:71-83 | the matching recursion accepts exactly when the text can be cut into pieces, one per pattern character: a star covers any run without a slash, a question mark one character that is no slash, any other itself |
| Readings.NegatedExcludes | internal/sshconfig/parser.go:71-83 | a Host line that lists a literal name negated never applies to it, whatever else it lists |
| Readings.NegatedIgnored | internal/sshconfig/parser.go:136-146 | so a directive under such a line can be removed without changing any value of that name |
| Parser.FirstValueWins | internal/sshconfig/parser.go:139-146 | the value of a keyword is that of the first directive that applies |
| Parser.ReadLines | internal/sshconfig/parser.go:84-135 | the line loop collects the declared directives and aliases, or fails on an open quote or a line of 128 KiB |
| Parser.ValuesOf | internal/sshconfig/parser.go:137-146 | the value map of an alias holds exactly the first values |
| Parser.BuildHost | internal/sshconfig/parser.go:147-194 | a candidate gets its values, default port and hops, and is valid exactly when nothing would have to be ignored |
| Parser.ParseText | internal/sshconfig/parser.go:84-197 | the whole reader of a text, of which only the first 2 MiB are read |
| Parser.Read | internal/sshconfig/importer.go:14-29 | the reader of a file, which is refused when it is longer than 2 MiB |
| Checks.FileExact | internal/sshconfig/importer.go:14-29 | a file of at most 2 MiB is read to its last character, a longer one is refused |
| Checks.NumberRead | internal/sshconfig/parser.go:150-157 | a port is read as decimal digits with at most one sign |
| Checks.NumberForm | internal/sshconfig/parser.go:150-157 | nothing but digits with at most one sign in front is a number |
| Parser.ParseDistinct | internal/sshconfig/parser.go:111-119 | every parsed host has a literal name and is listed once |
| Readings.ParseMeaning | internal/sshconfig/parser.go:34-197 | what a text means: it is read exactly when each line is short enough and closes its quotes; its hosts are exactly the names without wildcards on Host lines; each value is that of the first line, outside Match blocks, whose governing Host line is about the name; and the validity of a host is stated on those values |
| Readings.ExcludedLine | internal/sshconfig/parser.go:71-83 | in a text a line under a Host line that excludes a name gives that name nothing |
| Readings.PairSeparated | internal/sshconfig/parser.go:34-70 | blanks, tabs and equal signs separate alike and a comment ends the line |
| Readings.CommentCut | internal/sshconfig/parser.go:34-70 | a number sign outside quotes ends the line even inside a word |
| Readings.QuotedPart | internal/sshconfig/parser.go:34-70 | either kind of quotes protects everything but itself, in the middle of a word too |
| Readings.FinalBreak | internal/sshconfig/parser.go:84-100 | a final line break adds no line |
| Readings.LineEnds | internal/sshconfig/parser.go:84-100 | a carriage return at the end of a line, and a byte order mark at the start of the text only, are dropped |
| MacExport.Export | internal/provision/macos.go:30-127 | the builder loops and tables produce exactly the declared text, or fail on an invalid state; on a valid one they fail only by aborting the request at an empty route |
| ExportLines.UsernameExact | internal/provision/macos.go:86 | a stored user name survives being written and read back exactly when it has no quote, no percent sign and only printable characters |
| ExportLines.UserRead | internal/provision/macos.go:86 | whatever a stored user name holds, its line is unreadable or is read as some name, the stored one exactly when that is plain |
| ExportLines.OpenQuote | internal/sshconfig/parser.go:34-70 | a user name with one quotation mark between plain characters makes its line unreadable |
| Blocks.OwnValues | internal/sshconfig/parser.go:136-146 | in a file of one literal Host block per alias every alias gets exactly the values of its own block |
| ExportParse.ExportParses | internal/provision/macos.go:65-127 | the exported text parses to one host per exported host, in order, with its address, port, key file, route and the user name the reader makes of it, then one per tunnel |
| Forwards.ForwardsExported | internal/provision/macos.go:100-127 | read back from the exported text, the forwarding of every tunnel is its local port on 127.0.0.1 and a target that splits at the last colon into the remote host, in brackets when it has colons, and the remote port; a failing forwarding ends the connection |
| Forwards.OptionsExported | internal/provision/macos.go:65-127 | read back from the exported text, every host and tunnel uses its own key only and a keepalive every 30 seconds of which three may be missed |
| Forwards.NamesShown | internal/provision/macos.go:65-100 | the exported text labels every host with its own name |
| Forwards.ExportNames | internal/provision/macos.go:40-65 | aliases and key files are numbered from 01, in decimal with at least two digits, under the tag |
| RoundTrip.ExportExists | internal/provision/macos.go:30-127 | exporting a valid state with unique, non-empty ids never fails |
| RoundTrip.ExportExact | internal/provision/macos.go:30-127 | a configuration is exported exactly when it passes the check and every host has an identifier |
| RoundTrip.NamelessNotExported | internal/provision/macos.go:30-127 | a configuration of one key and one host without identifier that passes the check and is not exported |
| RoundTrip.ExportImport | internal/provision/macos.go:65-120 | the round trip, for plain user names: parsing the export and importing all host aliases into an empty store is committed and rebuilds the hosts in order with the same address, port, user name, jump edges and key sharing |
| UserNames.ReadableNames | internal/sshconfig/parser.go:34-70 | the exported text can be read only if the line of every user name can |
| UserNames.RoundTripExact | internal/provision/macos.go:65-120 | the round trip succeeds if and only if every user name is free of quotes, percent signs and unprintable characters |

## Left out

- Connection history, timestamps and the wording of errors and warnings: such a text is a parameter of the step that shows it.
- SSH handshakes, host-key checks, copying of tunnel traffic and remote sockets: connecting and dialling are steps that succeed or fail.
- Wall-clock time and jitter: only the order of steps and the base pause matter; that a waiting step is eventually taken is not stated.
- Ed25519, SHA-256, JSON, zip and SQLite: a feed arrives verified or not at all, the export tag is a parameter, and an update is atomic.
- HTTP routing, request decoding, the user interface, uploads, the settings editor and the web terminal; the check of a submitted source address is a parameter.
- Key files on disk during an installation: the paths a bundle gets are part of the incoming state.
- The archive, guide and install script of the export; the exported state of a prepared bundle is the same function applied to the bundle's state.
- Invalid UTF-8: texts are sequences of characters.
- Parser.ParseText: a character that the 2 MiB limit cuts in two is dropped whole, because texts are sequences of characters.
- Lower-casing beyond ASCII letters in keywords and patterns, and pattern character classes and escapes, which are a parameter.
- A URL is a record of scheme, user information, host, port and rest instead of text.
- The readiness check of a tunnel beyond the error text it may leave.
- TunnelObjects.Record.Finish: closing is recorded as the reported connection and the closed sockets, because the operating system's handles are not part of this model.
- Footer.RoundTrip: file reading errors are not modelled, because the file is given as its bytes.
- MixedRuns.SharedLastWriter: runs contain no edits of shared records and no new subscriptions; `Writers.EveryRecordWritten` has both.
- Sharing.ShapedAccepted: the size and format of key files, the source address and the own-installer test of an installation are not among its checks, because they concern file contents and the signing key of the machine.
