# agent-scale: a verified model

A Dafny model of the parts of agent-scale that decide who may connect to what, and of the stores and wire
formats those decisions rest on. Every statement below is for all inputs, all runs or all reachable states.

| files | part of the system |
|---|---|
| `RelayApi`, `Relay` | a Relay: admission, signed revocation updates, restart |
| `Authorization`, `AuthorizationProofs`, `Provenance`, `Sessions`, `AuthorizationTheorems`, `Counterexamples` | the protocol between Control and any number of Relays: claims, renewals, removals, clean-up, polls, lost replies, crashes, connections, in every interleaving |
| `Control`, `ControlProofs`, `ControlTheorems` | Control's state, its request handlers and the deltas they commit |
| `RequestEffects`, `Views` | what every request does, when it is carried out or only answered, and how it shows to endpoints and provisioners |
| `ControlSystem`, `SystemTheorems`, `RequestRuns` | Control with all its handlers next to its Relays; every run refines the protocol, so the protocol's theorems hold for it |
| `Database`, `Schema`, `Writers`, `Store`, `Commits` | the SQL statements, the schema's constraints, the three writers, the in-memory state beside them, and exactly when a commit is refused |
| `ControlDatabase`, `RefusalRuns` | Control with the database's verdict on every commit, and runs in which it refuses |
| `EdgePin`, `EdgeOwnership` | the Edge: which clients it accepts, how signed maps change that, and that a connected client owns the edge in Control |
| `Pool` | the client daemon's connection cache under every interleaving |
| `Journal`, `Reconcile`, `McpSync`, `SyncRuns` | `mcp sync`: the crash-recoverable multi-file commit, which configuration entries it may touch, the two together, and every run of syncs, crashes and edits |
| `Framing`, `Messages` | tag/length frames, proxied datagrams, line reassembly |

How the source is represented:

- Records are keyed by identity. `Store.Memory` holds them as the lists the source holds and is proved equal to the keyed state.
- A handler is a function from state and request to a decision (`Control.Plan`); a committed decision is a delta. The database may abort any transaction.
- Signatures, digests and secret hashes are ideal. Random invitation ids never repeat. Endpoint ids are canonical strings.
- A peer may present any token and anybody may answer a poll, but nobody else signs in Control's name: its signatures are on what it issued.
- There is one clock that never goes back. Claims and renewals carry a reading taken before they queued.
- A Relay's update is two steps: judged and stored, then activated. A crash between them restarts from the stored state.
- `issued`, `removed`, `dual`, `used`, `claims` and `generated` are history that nothing in the model reads.
- A step that is not enabled changes nothing, so every list of steps is a run.
- Disk operations land or do not land; a crash or an I/O error is the number of operations that landed.

Where the source does less than one might expect, the model keeps the source and the exact condition is proved:

- A live, unexpired credential is admitted unless a later enrollment of the same endpoint has been removed (`NoFalseDenial`); once a Relay has learned of such a removal it denies the credential (`LaterRemovalDenies`), and a Relay denies exactly what it holds such a tombstone for (`DeniedExactly`). `ClearExactly` says which change brings this about; `SecondRoleIsDenied` is a run.
- Sessions are safe throughout a run if and only if no activated update was raced, that is, no session's old tombstone ran out while an equal one was being stored (`SessionsSafeExactly`); `SessionSurvivesItsRemoval` is a run. Endpoints that never held two roles are never raced.
- A client that is also an edge gets the edge's map, so it does not see edges it owns (`OwnershipIsSymmetricExactly`).
- Of all that the handlers decide, the database refuses exactly edge invitations whose owner is gone and request ids already on record (`RefusedExactly`); `RequestsCommitExactly` says so of every reachable state, and `OrphanWitness` and `CollisionWitness` are runs.
- Recovery replaces a configuration by what the crashed sync had decided, so an edit made in between is lost exactly when that file is among the outputs (`EditIsKeptUnlessDoomed`).
- The size limit of a session depends on how its bytes were cut (`SessionIsItsBytes` gives the condition); its messages do not (`CutsDoNotMatter`).

## Model

| member | source | states |
|---|---|---|
| RelayApi.SizeDetectsDuplicates | crates/as-relay/src/main.rs:500-515 | comparing the size of the collected table with the length of the list rejects a list exactly when an endpoint occurs twice |
| RelayApi.TableOfWire | crates/relay-api/src/lib.rs:112-126 | a revocation table written out in any order reads back as the same table |
| Relay.ListedTableValidates | crates/as-relay/src/main.rs:500-515 | a state file written from an in-range table passes the validation made on restart and yields that table |
| Relay.BlankExactly | crates/as-relay/src/main.rs:324-334 | an audience counts as blank exactly if it consists of the 25 white-space code points of Unicode |
| Relay.AdmittedExactly | crates/as-relay/src/main.rs:141-170 | the chain of checks admits exactly the credentials that meet every condition, and each denial is true |
| Relay.ValidatedExactly | crates/as-relay/src/main.rs:500-515 | an update validates exactly if version, audience and ranges are right and no endpoint occurs twice |
| Relay.AcceptedExactly | crates/as-relay/src/main.rs:547-631 | on a state that validates, the branches accept exactly the acceptable updates; the final range check never refuses one |
| Relay.AcceptedReplaces | crates/as-relay/src/main.rs:604-631 | for every endpoint and every later moment, what is revoked afterwards is what the newer update says of it, or what was said before |
| Relay.CutExactly | crates/as-relay/src/main.rs:632-644 | merging a delta cuts exactly the sessions whose endpoint's effective generation rises |
| Relay.Server.Start | crates/as-relay/src/main.rs:324-334 | startup is refused exactly for a revoked enrollment, a blank audience or a stored state that does not validate; otherwise the Relay serves exactly the stored state, or version 0 with nothing revoked on a first start |
| Relay.Server.OnConnect | crates/as-relay/src/main.rs:114-139 | a connection opens one session exactly when the enrollment stands and what it presents is signed by the authority, for this network and this endpoint, within its time and above the tombstone in force; a refusal names something that is wrong; no connection makes the session set unsafe |
| Relay.Server.RevokeAll | crates/as-relay/src/main.rs:838-849 | a revoked Relay drops every session, stays closed, and keeps the marker if it could be stored |
| Relay.Server.Restart | crates/as-relay/src/main.rs:324-334 | a marked Relay does not come up again; any other serves exactly what it had stored |
| Relay.Server.Merge | crates/as-relay/src/main.rs:604-618 | merging fails exactly when some unexpired generation would move backwards; otherwise it is the live rows overridden by the delta |
| Relay.Server.DisconnectRevoked | crates/as-relay/src/main.rs:632-644 | exactly the sessions of endpoints whose effective generation the merge raises are cut |
| Relay.Server.DropExpired | crates/as-relay/src/main.rs:561-585 | repeating a version forgets expired rows and nothing else, and the result still validates |
| Relay.Server.ApplyJudged | crates/as-relay/src/main.rs:547-646 | every branch of the update: each refusal leaves table, version and sessions untouched, an accepted one adopts the update's version, and served and stored state agree and validate either way |
| Relay.Server.ApplyRevocationUpdate | crates/as-relay/src/main.rs:547-646 | an update is accepted exactly if it is signed by the authority, well formed, for this network and either repeats the version with known content or is newer, timely, free of overlap and never takes an unexpired generation back; from then on it replaces what is said about the endpoints it names and nothing else, and exactly the sessions of endpoints whose effective generation rises are cut; anything else changes nothing |
| AuthorizationProofs.HonestReplyAdopted | crates/as-relay/src/main.rs:555-631 | an answer built for a Relay's own version passes the version, duplicate, range, overlap and backwards checks; only its age can refuse it |
| AuthorizationProofs.StepKeepsInv | crates/as-relay/src/main.rs:547-646 | every step of Control, of a Relay or of the network keeps the protocol invariant |
| AuthorizationProofs.RunKeepsInv | crates/as-relay/src/main.rs:760-836 | the protocol invariant holds after every run of polls, updates, crashes and connections |
| AuthorizationProofs.PresentedIsIssued | crates/as-relay/src/main.rs:141-170 | whatever a peer presents, forged or tampered, it is admitted only with a credential that Control signed and issued |
| AuthorizationProofs.ForgeryIsLost | crates/as-relay/src/main.rs:547-560 | an update Control did not sign changes nothing |
| Sessions.SessionsWereOpened | crates/as-relay/src/main.rs:114-170 | in every run every session was opened by presenting a credential Control had issued to that endpoint with that generation, unexpired and above any tombstone in force at that moment |
| Sessions.SessionsEndExactly | crates/as-relay/src/main.rs:619-646 | in every run a step ends a session exactly if it activates an update that raises its endpoint's effective generation, closes that connection, or stops or expels that Relay |
| AuthorizationTheorems.RevocationSafety | crates/as-relay/src/main.rs:141-170 | once a Relay has reached the relay revision of a removal in some run, then in every continuation of that run, crashes and restarts included, it refuses every credential ever issued under that enrollment |
| AuthorizationTheorems.HonestDeltasAreAccepted | crates/as-relay/src/main.rs:547-646 | in every reachable state the pending answer is adopted unless it is too old, and both the served and the stored state would validate on a restart |
| AuthorizationTheorems.OnePollCatchesUp | crates/as-control/src/main.rs:1535-1570 | no Relay gets stuck: every run can be continued by at most four polling steps of that Relay and nobody else, whatever is pending or staged, so that it reaches Control's relay revision |
| AuthorizationTheorems.SessionSafety | crates/as-relay/src/main.rs:632-644 | in every run that activates no raced update, no session of any endpoint runs under a generation an unexpired tombstone covers, and sessions of removed enrollments the Relay knows of have outlived their credentials |
| AuthorizationTheorems.SessionsSafeExactly | crates/as-relay/src/main.rs:547-646 | over every run and for every endpoint, sessions are safe throughout if and only if no activated update was raced |
| AuthorizationTheorems.StepSafeExactly | crates/as-relay/src/main.rs:619-646 | from a safe reachable state, a step loses safety exactly when it activates a raced update |
| AuthorizationTheorems.SingleRoleSessionSafety | crates/as-relay/src/main.rs:632-644 | sessions of endpoints that never held two roles are safe in every run, raced or not |
| AuthorizationTheorems.NoFalseDenial | crates/as-control/src/main.rs:2223-2245 | in every run, while no later enrollment of the endpoint has been removed, every tombstone at Control, in flight, staged, stored or served is strictly older than the live enrollment, so every enrolled Relay admits its credential |
| AuthorizationTheorems.LaterRemovalDenies | crates/as-relay/src/main.rs:163-168 | in every run, a Relay that has learned of the removal of a later enrollment denies the live credential while the removed one would have lasted |
| AuthorizationTheorems.DeniedExactly | crates/as-relay/src/main.rs:141-170 | in every reachable state an enrolled Relay denies a live, unexpired credential if and only if it holds an unexpired tombstone covering the removal of a later enrollment |
| AuthorizationTheorems.ClearExactly | crates/as-control/src/main.rs:2223-2245 | a new enrollment, also a repeated one, has no later removal; it gets one exactly when a later enrollment of its endpoint is removed |
| AuthorizationTheorems.SingleRoleIsClear | crates/as-control/src/main.rs:992-1004 | an endpoint that never held two roles at once never has a later removal |
| Provenance.RunKeepsGrounded | crates/as-control/src/main.rs:2223-2245 | in every run every tombstone anywhere carries the generation of some removal of its endpoint and lasts exactly as long as the credentials of some removal would have, and no staged update moves a generation backwards |
| Provenance.RunProgresses | crates/as-relay/src/main.rs:619-631 | over any run no Relay's version falls, crashes included, because what it stores or stages is never behind what it serves; removals and issued credentials are never forgotten |
| AuthorizationTheorems.StepMonotone | crates/as-control/src/main.rs:2164-2201 | no step lowers a revision, moves it by more than one, changes a surviving generation or shortens a surviving credential |
| Counterexamples.SecondRoleIsDenied | crates/as-relay/src/main.rs:163-168 | a run after which a live, unexpired client credential of a former edge is refused as revoked |
| Counterexamples.SessionSurvivesItsRemoval | crates/as-relay/src/main.rs:632-644 | a run after which a removed client holds a session under an unexpired tombstone |
| ControlProofs.PlansAreGuarded | crates/as-control/src/main.rs:939-1024 | whatever any handler decides to commit has passed the checks for that kind of change against the current state |
| ControlProofs.ClaimsAreGuarded | crates/as-control/src/main.rs:939-1024 | a claim commits only for a pending invitation whose identity and scoped name are free and whose owner is registered |
| ControlProofs.ProvisionerPlansAreGuarded | crates/as-control/src/main.rs:1247-1416 | whatever a provisioner action decides to commit has passed the checks for that kind of change; what it does is in `RequestEffects` |
| ControlProofs.AdminPlansAreGuarded | crates/as-control/src/main.rs:1754-1988 | the same for every administrator action |
| ControlProofs.SweepEffect | crates/as-control/src/main.rs:2247-2279 | the clean-up delta removes exactly the invitations past retention and the expired tombstones |
| ControlProofs.MutationKeepsOk | crates/as-control/src/main.rs:2281-2340 | every change keeps scoped names unique, owners registered, and invitation states, claims and request ids consistent |
| ControlProofs.MutationRefines | crates/as-control/src/main.rs:2164-2201 | every committed change is exactly one enroll, renew, remove, collect or publish step of the authorization protocol |
| ControlTheorems.ProvisionersAreIsolated | crates/as-control/src/main.rs:1247-1416 | whatever one provisioner does, every other provisioner's topology of clients, edges and invitations is unchanged |
| ControlTheorems.PlansSpareOthers | crates/as-control/src/main.rs:1496-1503 | a provisioner's decisions reach only invitations, clients and edges it manages |
| ControlTheorems.OwnershipIsSymmetricExactly | crates/as-control/src/main.rs:2342-2403 | a client's map lists an edge exactly when that edge's map allows this client and nobody else, if and only if the client is not itself an edge that owns edges |
| ControlTheorems.InvitationMovesOnce | crates/as-control/src/main.rs:1813-1835 | one change leaves an invitation as it is, ends a pending one, or drops one that is past retention |
| RequestEffects.WordsAre | crates/as-control/src/main.rs:2589-2662 | names, secrets and request ids are exactly the words of the right length over their alphabets |
| RequestEffects.ProvisionerTransfers | crates/as-control/src/main.rs:1371-1416 | a transfer is carried out exactly when both names are clients the provisioner manages, the edge is the first one's under that name, the second has none of that name and the expected revision matches; it changes that edge's owner and nothing else; it is answered without change exactly when it is already so |
| RequestEffects.AdminTransfers | crates/as-control/src/main.rs:1870-1896 | the same for the administrator, who names the edge by owner and name |
| RequestEffects.AdminRemovesEdge | crates/as-control/src/main.rs:1897-1920 | exactly the named edge goes, and its tombstone covers its grant and whatever it covered before |
| RequestEffects.ProvisionerRemovesEdge | crates/as-control/src/main.rs:1346-1370 | the same for an edge of a managed client; one that is not there is answered |
| RequestEffects.ClientRemovesEdge | crates/as-control/src/main.rs:1147-1197 | a client removes exactly an edge of its own |
| RequestEffects.AdminRemovesClient | crates/as-control/src/main.rs:1836-1869 | a client is removed exactly when it owns no edge and no claimable edge invitation; only it goes, and its tombstone covers its grant |
| RequestEffects.ProvisionerRemovesClient | crates/as-control/src/main.rs:1310-1345 | the same for a managed client; a name nobody has is answered |
| RequestEffects.ProvisionerRevokes | crates/as-control/src/main.rs:1287-1309 | an invitation the provisioner manages is revoked exactly while pending, and answered once revoked |
| RequestEffects.AdminRevokes | crates/as-control/src/main.rs:1813-1835 | the same for the administrator and any invitation |
| RequestEffects.ClientInvites | crates/as-control/src/main.rs:1091-1145 | when a client's edge invitation is created, and that record and token say what was asked for, until now plus the lifetime |
| RequestEffects.AdminInvites | crates/as-control/src/main.rs:1990-2010 | the same for the administrator's invitations |
| RequestEffects.ProvisionerInvites | crates/as-control/src/main.rs:1419-1456 | the same for a provisioner, once per request id and only for clients it manages |
| RequestEffects.ProvisionerRepeats | crates/as-control/src/main.rs:1419-1456 | exactly a repeat of a request on record, with the same action and secret, is answered with that record's token |
| RequestEffects.Joins | crates/as-control/src/main.rs:939-1024 | a claim registers the endpoint exactly while the token is the one on record, pending and unexpired and its place is free; the new record has the invitation's name, owner and manager, the next revision as generation and seven days; the claimant's repeat is answered exactly while it is registered |
| RequestEffects.WatchRenews | crates/as-control/src/main.rs:1611-1663 | a watch renews, to seven days from its reading, exactly a credential with at most two days left, the client role before the edge role, and changes nothing else |
| RequestEffects.RelayReports | crates/as-control/src/main.rs:1572-1609 | a Relay's port changes exactly when a registered Relay reports another valid one |
| RequestEffects.AdminRemovesRelay | crates/as-control/src/main.rs:1921-1936 | exactly the named Relay goes |
| RequestEffects.AdminAddsProvisioner | crates/as-control/src/main.rs:1937-1961 | a provisioner is added exactly when identity and name are new |
| RequestEffects.AdminRemovesProvisioner | crates/as-control/src/main.rs:1962-1988 | a provisioner goes exactly when it manages no client and no claimable invitation |
| RequestEffects.CleanUpKeeps | crates/as-control/src/main.rs:2205-2279 | clean-up keeps exactly the invitations within seven days of their end and the unexpired tombstones |
| RequestEffects.OthersAreAcknowledged | crates/as-control/src/main.rs:1490-1494 | only invitation requests return a token |
| RequestEffects.RefusalCodes | crates/as-control/src/main.rs:1237-1245 | a request is unauthorized exactly if it is for another network or its token is not the one on record, and forbidden exactly if whoever asks is not registered or asks to remove somebody else's client |
| RequestRuns.ServedLeadsTo | crates/as-control/src/main.rs:2164-2201 | a request that commits leads to the state its effect describes, any other leaves Control as it is |
| RequestRuns.EffectiveExactly | crates/as-control/src/main.rs:2164-2201 | in every reachable state whatever is to be carried out passes the table checks, while a seven-day grant has room before the last representable second |
| RequestRuns.TokensEnroll | crates/as-control/src/main.rs:939-1024 | the token of a committed invitation, presented after whatever else has happened, registers an endpoint exactly while the invitation is on record and pending, the token unexpired and the place free |
| RequestRuns.EverybodyWasInvited | crates/as-control/src/main.rs:939-1024 | in every run whoever is registered has claimed an invitation of this network that was pending then |
| Views.MapShows | crates/as-control/src/main.rs:2342-2419 | a map shows every Relay, the credential of the role, the owner to an edge and exactly its edges, by name, to a client |
| Views.ClientsShow | crates/as-control/src/main.rs:1458-1488 | a client is shown to exactly the provisioner that manages it, under its name, with exactly the edges it owns |
| Views.InvitationsShow | crates/as-control/src/main.rs:1458-1488 | an invitation is shown to exactly the provisioner that manages it, with the status its state and expiry give |
| Views.InviteShows | crates/as-control/src/main.rs:1419-1488 | a committed invitation is the one new entry of the next view |
| Views.RevocationShows | crates/as-control/src/main.rs:1287-1309 | a committed revocation shows, and nothing else changes |
| Views.ClientRemovalShows | crates/as-control/src/main.rs:1310-1345 | a removed client is gone from the next view, and nothing else changes |
| Views.EdgeRemovalShows | crates/as-control/src/main.rs:1346-1370 | a removed edge is gone from its owner's entry, and nothing else changes |
| Views.TransferShows | crates/as-control/src/main.rs:1371-1416 | a transferred edge moves from one entry to the other under its name, and nothing else changes |
| Views.JoiningShows | crates/as-control/src/main.rs:2281-2340 | whoever joins on a provisioner's client invitation shows there, and the invitation as claimed |
| ControlSystem.StepRefines | crates/as-control/src/main.rs:1535-1570 | every step of Control and its Relays is one step of the authorization protocol |
| ControlSystem.RunRefines | crates/as-control/src/main.rs:1535-1570 | every run of Control with all its handlers is, step for step, a run of the authorization protocol |
| SystemTheorems.RemovedNeverAdmitted | crates/as-control/src/main.rs:1147-1197 | revocation safety over every run of the whole Control from `init` and every continuation of it |
| SystemTheorems.LiveNeverDenied | crates/as-control/src/main.rs:2342-2419 | in every run of the whole Control, every enrolled Relay admits the unexpired credential a registered endpoint's current map carries, unless a role it took on later has been removed |
| SystemTheorems.LaterRemovalDenies | crates/as-control/src/main.rs:1147-1197 | and every Relay that has learned of such a removal denies it while the removed role would have lasted |
| SystemTheorems.SessionsSafeExactly | crates/as-control/src/main.rs:1535-1570 | over every run of the whole Control, sessions are safe throughout exactly when no activated update was raced |
| SystemTheorems.IssuedWasHanded | crates/as-control/src/main.rs:2342-2444 | every credential in circulation was in a map Control gave its endpoint while that endpoint was registered with that grant |
| SystemTheorems.SessionsWereOpened | crates/as-control/src/main.rs:2421-2444 | in every run of the whole Control every session of every Relay was opened with a credential handed to that endpoint before |
| SystemTheorems.SessionsEndExactly | crates/as-control/src/main.rs:1535-1570 | and a step ends a session exactly as the protocol says |
| SystemTheorems.PollsAreAnswered | crates/as-control/src/main.rs:1535-1570 | a Relay that polls is sent exactly the tombstones newer than its version, signed, while it is registered; otherwise it shuts down |
| SystemTheorems.ControlInvariant | crates/as-control/src/main.rs:692-720 | over every run from `init`: unique scoped names, registered owners, unique generations within 1..revision, tombstone revisions within the relay revision |
| SystemTheorems.StepAdvances | crates/as-control/src/main.rs:1611-1663 | every step moves each revision by nothing or one and never shortens a surviving credential |
| SystemTheorems.InvitationsAreSingleUse | crates/as-control/src/main.rs:949-1014 | in no run does one invitation enroll two endpoints |
| SystemTheorems.InvitationsEnrollOnce | crates/as-control/src/main.rs:949-1014 | once a claim has committed, no later request commits a claim of that invitation, not even its claimant's |
| SystemTheorems.RepeatedClaimIsAnswered | crates/as-control/src/main.rs:970-987 | whatever happened in between, the claimant's repeat changes nothing and is answered exactly while the token is unexpired, the record kept, the endpoint registered and a Relay's port unchanged |
| SystemTheorems.ClaimedTokensAreRefused | crates/as-control/src/main.rs:988-990 | any other endpoint is refused in every later state |
| SystemTheorems.InvitationsAreFinal | crates/as-control/src/main.rs:1813-1835 | over any run an invitation keeps its identity until it is swept, and once terminal never changes |
| SystemTheorems.InvitationsAreRetained | crates/as-control/src/main.rs:2247-2279 | an invitation disappears only after its retention was over at some point of the run |
| SystemTheorems.RetriesAreIdempotent | crates/as-control/src/main.rs:1419-1456 | after an invite request commits, the same request returns the same invitation with no change, whatever happened in between, while the record is kept, the provisioner registered and the owner name resolves |
| SystemTheorems.SameExpectationCommitsOnce | crates/as-control/src/main.rs:1505-1515 | two provisioner requests that expect the same revision never both commit, whatever runs between them |
| Database.PerformedLoads | crates/as-control/src/db.rs:408-531 | each SQL statement changes what a reader loads exactly as the change does in memory |
| Database.PlaceholdersAreInvisible | crates/as-control/src/db.rs:791-797 | inserting a provisioner placeholder changes nothing a reader loads |
| Database.CollectionIsInvisible | crates/as-control/src/db.rs:408-531 | dropping unreferenced inactive provisioners never disturbs a loaded invitation, client or provisioner, in spite of the SET NULL references |
| Database.RunChanges | crates/as-control/src/db.rs:408-531 | running a delta's statements in order loads to the folded delta, or fails as a whole |
| Writers.WriteNodes | crates/as-control/src/db.rs:555-779 | writing only new and differing rows, parents first and each table in the order of its list, adds exactly the difference of the two states and keeps the constraints; it fails if a unique key is still held when a row comes up, and succeeds if none is and the next state meets the schema |
| Writers.SyncRows | crates/as-control/src/db.rs:555-779 | ordered deletes, conditional upserts, deactivation and collection turn tables that load to the previous state into tables that load to the next and keep the constraints; on tables that meet the schema they succeed only if the order of the lists frees every owner and unique key in time, and then for every consistent next state |
| Writers.Db.ApplyDeltaSync | crates/as-control/src/db.rs:408-531 | all of the delta and both revisions, or nothing; it succeeds exactly when every statement holds, the expected revisions match and both advance by at most one within range |
| Writers.Db.ApplySync | crates/as-control/src/db.rs:555-779 | if the tables load to `previous` and the transaction commits, they load to `next` and meet the schema; if not, they are untouched; it commits if and only if the revisions advance, `next` is consistent, no deleted client still owns an edge, and the order of the lists frees every unique key before it is taken |
| Writers.Db.InitializeSync | crates/as-control/src/db.rs:289-406 | the full rewrite loads to the given state and meets the schema, or changes nothing; it commits if and only if the state meets the schema, its clients' managers have rows and the metadata row accepts it |
| Writers.RewriteRows | crates/as-control/src/db.rs:322-402 | the rewrite's rows succeed exactly on consistent states whose clients have known managers |
| KeyedRows.Upsert | crates/as-control/src/main.rs:420-426 | replacing or appending a record in the list keeps keys unique and is one update of the keyed state |
| KeyedRows.Retain | crates/as-control/src/main.rs:2205-2221 | filtering the list is filtering the keyed state |
| Store.Memory.Apply | crates/as-control/src/main.rs:372-417 | folding a delta over the lists equals folding it over the keyed state |
| Store.Memory.CommitDelta | crates/as-control/src/main.rs:2164-2201 | memory and database load to the same state afterwards; on failure neither has changed; and it fails exactly when the database refuses |
| Store.Memory.Sweep | crates/as-control/src/main.rs:2205-2221 | clean-up forgets exactly what is past retention or expired |
| Store.Memory.Listing | crates/as-control/src/db.rs:555-779 | the lists, read as keys, enumerate each table once, which is the order the incremental writer follows |
| Store.Memory.Recover | crates/as-control/src/main.rs:841-845 | the sweep at startup is stored by the incremental writer, which fails only on the metadata row |
| Commits.CommitKeepsConstraints | crates/as-control/src/schema.sql:11-71 | every committed delta leaves tables that meet every key, check and reference of the schema |
| Commits.CommitsExactlyWhenWritable | crates/as-control/src/db.rs:408-531 | on tables that meet the schema what a handler decided commits if and only if the owner named in a written edge invitation is registered, a new request id is unused, and ports are in range |
| Commits.RefusedExactly | crates/as-control/src/db.rs:408-531 | on tables that meet the schema, the commit of what the handlers decided succeeds if and only if it writes neither an orphaned edge invitation nor a request id already on record |
| Commits.RemovalOrphansInvitations | crates/as-control/src/main.rs:1813-1835 | when the administrator removes a client that has a pending edge invitation, the invitation has expired, and every later revocation of it passes the handler and is refused by the database |
| ControlDatabase.TablesFollowControl | crates/as-control/src/main.rs:2164-2201 | with the database's own verdict deciding every commit, in every run from `init`, restarts included, the tables load to Control's state and meet the schema, and the run is one of `ControlSystem` |
| ControlDatabase.StartupIsCleanUp | crates/as-control/src/main.rs:841-845 | the sweep at startup is one clean-up request |
| ControlDatabase.RequestsCommitExactly | crates/as-control/src/db.rs:408-531 | in every reachable state a request the handlers decide to carry out is committed if and only if it writes neither an orphaned edge invitation nor a request id already on record |
| RefusalRuns.OrphanWitness | crates/as-control/src/main.rs:1813-1835 | a run from `init` after which the administrator's revocation of an invitation is decided and refused by the database |
| RefusalRuns.CollisionWitness | crates/as-control/src/main.rs:1419-1456 | a run from `init` after which a provisioner's request is decided and refused by the database, because another manager used its id |
| EdgePin.ClientPin.constructor | crates/as-edge/src/iroh_edge.rs:47-78 | a new pin accepts exactly what it was given and holds no connection |
| EdgePin.ClientPin.AuthorizeAndRegister | crates/as-edge/src/iroh_edge.rs:80-103 | a connection is registered exactly when its client is allowed; a first use pins in memory and on disk together, and a failed write changes nothing |
| EdgePin.ClientPin.Unregister | crates/as-edge/src/iroh_edge.rs:105-113 | exactly one connection is forgotten, and a client without connections is forgotten with it |
| EdgePin.ClientPin.ReplaceManaged | crates/as-edge/src/iroh_edge.rs:129-147 | every connection of every dropped client is closed and forgotten, every other one stays; a standalone pin refuses unchanged |
| EdgePin.OwnershipIsEnforced | crates/as-edge/src/main.rs:655-703 | in every run each registered connection belongs to the allowed set of the last applied map, the applied revision never falls, and after a revocation nobody is ever connected |
| EdgeOwnership.ConnectedClientOwnsTheEdge | crates/as-edge/src/main.rs:655-756 | if every map that verifies is one Control signed during a run, renewals at an unchanged revision included, whoever is connected owns the edge in every state of that run at the revision the edge has applied |
| EdgeOwnership.RevisionFixesOwners | crates/as-control/src/main.rs:1611-1663 | states of one run with the same revision agree on who owns every edge |
| EdgePin.TransferClosesTheOldOwner | crates/as-edge/src/main.rs:707-756 | the next map closes every connection of a client that is not the owner and keeps every one of the owner |
| EdgePin.ConnectionsMoveExactly | crates/as-edge/src/iroh_edge.rs:80-113 | a connection that comes or goes changes one entry of one client |
| EdgePin.MapsAreTakenExactly | crates/as-edge/src/main.rs:655-703 | an offered map is taken exactly if it verifies, does not roll back, carries a credential and can be applied; then exactly the connections of clients it no longer allows are closed and forgotten |
| EdgePin.ExpulsionClosesAll | crates/as-edge/src/main.rs:655-703 | a revoked edge closes every connection and stops watching |
| EdgePin.FirstClientStays | crates/as-edge/src/iroh_edge.rs:59-103 | in every run of a standalone edge, failed writes and restarts included, memory and file agree, the first client ever trusted stays the only one, and nobody else is ever connected |
| EdgePin.FirstClientIsTrusted | crates/as-edge/src/iroh_edge.rs:80-103 | an edge that trusts nobody yet trusts whoever comes first, in memory and on disk |
| Pool.Daemon.PublishDial | crates/agent-scale/src/daemon/connection_pool.rs:16-86 | a finished dial is cached exactly when the policy still names its identity; otherwise it is closed |
| Pool.Daemon.GetCached | crates/agent-scale/src/daemon/connection_pool.rs:17-24 | a cached connection is handed out exactly while it is open |
| Pool.Daemon.EvictClosed | crates/agent-scale/src/daemon/connection_pool.rs:73-83 | a watcher drops the cached connection exactly when it is closed, so a newer one stays |
| Pool.Daemon.ReloadEdges | crates/agent-scale/src/daemon.rs:312-333 | after a reload every cached connection leads to the identity the new policy names, and every evicted one is closed |
| Pool.PoolIsSafe | crates/agent-scale/src/daemon/connection_pool.rs:16-86 | in every interleaving each cached connection leads to the identity configured now and is watched, and an edge's dial lock is held exactly while one task is between acquiring it and returning |
| Pool.WorkingConnectionsStay | crates/agent-scale/src/daemon/connection_pool.rs:16-86 | no publication and no stale watcher displaces a working connection; only a reload that no longer names its identity does, and that closes it |
| Pool.DeadConnectionsGo | crates/agent-scale/src/daemon/connection_pool.rs:73-83 | a watcher that fires leaves no closed connection cached under its name and touches no other |
| Pool.TasksReturnExactly | crates/agent-scale/src/daemon/connection_pool.rs:16-86 | a step returns a task exactly by handing it the working cached connection of its edge, by publishing its own dial while the policy names that identity, or by a failure: the target does not parse, the dial fails or meets another identity, or the policy has changed; a result is final |
| Pool.PublicationsShow | crates/agent-scale/src/daemon/connection_pool.rs:56-71 | publication caches the dial and changes nothing else, or closes it and changes nothing else |
| Pool.TasksWereAnswered | crates/agent-scale/src/daemon/connection_pool.rs:16-86 | in every run each returned task was answered so at one step, and a connection of its own is one it had dialed and that led to the identity asked for |
| Journal.Project.WriteIfChanged | crates/agent-scale/src/mcp_sync.rs:430-445 | afterwards the file holds the bytes, whether or not a write was needed, or nothing landed |
| Journal.Project.ApplyJournal | crates/agent-scale/src/mcp_sync.rs:186-192 | the outputs land in order up to the first unsafe path or the crash, and success, refusal and interruption are told apart exactly |
| Journal.Project.RecoverJournal | crates/agent-scale/src/mcp_sync.rs:167-184 | an absent journal succeeds, an unreadable or foreign one changes nothing, any other is replayed as far as the disk allows and removed only at the end |
| Journal.Project.CommitPrepared | crates/agent-scale/src/mcp_sync.rs:143-165 | nothing is written unless every output lies safely below the root; otherwise journal, outputs and removal land in that order |
| Journal.ReplayAbsorbs | crates/agent-scale/src/mcp_sync.rs:167-192 | replaying the whole journal over any partial replay gives the complete result |
| Journal.EveryRunIsAtomic | crates/agent-scale/src/mcp_sync.rs:143-192 | any run of commits and recoveries, each cut off anywhere, means the landed commits performed whole and in order |
| Journal.CrashesAreAllOrNothing | crates/agent-scale/src/mcp_sync.rs:143-192 | after a commit and any number of recoveries cut off anywhere, a completed recovery leaves all outputs old or all new, touches no other file, and recovering again does nothing |
| Journal.EditMeans | crates/agent-scale/src/mcp_sync.rs:186-192 | an edit made while a journal is pending survives its recovery exactly when the file is not among the outputs, and no other file is affected by it |
| Journal.SafePathsStayBelow | crates/agent-scale/src/mcp_sync.rs:194-201 | a path that passes the check leads strictly below the project root, one level per component |
| Journal.UnsafePathsDoNot | crates/agent-scale/src/mcp_sync.rs:194-201 | and any other does not |
| Reconcile.BuildDesired | crates/agent-scale/src/mcp_sync.rs:84-96 | building succeeds exactly when no two edge/server pairs share an alias, and then every pair is desired under its own alias and nothing else is |
| Reconcile.AliasReads | crates/agent-scale/src/mcp_sync.rs:84-96 | an alias is the edge's name, two underscores and the server's name |
| Reconcile.UnambiguousWhenApart | crates/agent-scale/src/mcp_sync.rs:84-96 | aliases never collide as long as no edge's name begins another's |
| Reconcile.ReleaseOwned | crates/agent-scale/src/mcp_sync.rs:336-348 | exactly the owned entries no longer desired are released, and a modified one stops the run with its name |
| Reconcile.PutDesired | crates/agent-scale/src/mcp_sync.rs:350-367 | succeeds exactly when every desired entry is absent or owned and unmodified; then ownership is the desired set with its fingerprints |
| Reconcile.Reconcile | crates/agent-scale/src/mcp_sync.rs:325-369 | succeeds exactly on untampered configurations, plans exactly the needed removals and puts, owns exactly the desired set, and a refusal names an entry it must not touch |
| Reconcile.Prepare | crates/agent-scale/src/mcp_sync.rs:232-275 | carrying out the plan gives the configuration without released entries and with every needed one |
| Reconcile.SyncedConfiguration | crates/agent-scale/src/mcp_sync.rs:325-369 | afterwards every desired alias carries the generated fingerprint, entries never owned are untouched, and the aliases are exactly those plus the desired ones |
| Reconcile.SecondSyncIsQuiet | crates/agent-scale/src/mcp_sync.rs:325-369 | an immediate second sync succeeds, plans nothing and changes nothing |
| Reconcile.AgreedIsUntampered | crates/agent-scale/src/mcp_sync.rs:325-369 | where every owned entry carries its recorded fingerprint, a sync is accepted exactly when no desired alias is taken by an entry that is not owned |
| Reconcile.AgreedIsQuiet | crates/agent-scale/src/mcp_sync.rs:325-369 | where that holds of what is desired, a sync plans nothing and changes nothing |
| Reconcile.UserWorkIsNeverLost | crates/agent-scale/src/mcp_sync.rs:325-369 | however syncs and user edits interleave, a sync removes or replaces only an entry that still has the fingerprint of one an earlier sync generated there |
| McpSync.PrepareKind | crates/agent-scale/src/mcp_sync.rs:232-323 | one client is prepared exactly when its document can be read and its entries are untampered; everything else in the document is kept |
| McpSync.PrepareAll | crates/agent-scale/src/mcp_sync.rs:115-122 | all clients are prepared against what the manifest said before, or the first one that cannot be stops the sync by name |
| McpSync.Sync | crates/agent-scale/src/mcp_sync.rs:65-137 | a process of which any number of disk operations land leaves exactly the disk of a recovery followed by the commit of all documents and the manifest; it refuses exactly when the recovered project does not allow the sync |
| SyncRuns.CommittedReads | crates/agent-scale/src/mcp_sync.rs:115-129 | after a committed sync every synced document and the manifest read back as decided, and other documents as before |
| SyncRuns.CommittedShows | crates/agent-scale/src/mcp_sync.rs:232-323 | afterwards a synced document has the desired aliases with the generated fingerprint, every entry that was not owned as it was, and everything else untouched; other documents are as before |
| SyncRuns.CommittedIsSettled | crates/agent-scale/src/mcp_sync.rs:65-137 | a committed sync is a fixed point: the same sync is accepted again and would write the same bytes |
| SyncRuns.RetriesConverge | crates/agent-scale/src/mcp_sync.rs:65-192 | once its journal has landed, repeating a sync any number of times, each cut off anywhere, and then once to the end gives the files the first run meant, byte for byte, and a further run plans nothing |
| SyncRuns.RunsStaySound | crates/agent-scale/src/mcp_sync.rs:65-192 | however syncs, crashes, recoveries and edits interleave, manifest and configurations, as recovery completes them, can be read and agree on every claimed entry no user has changed since |
| SyncRuns.UnsyncedIsSound | crates/agent-scale/src/mcp_sync.rs:217-223 | a project without a manifest whose documents can be read is where such runs start |
| SyncRuns.RefusedOnlyForStrangers | crates/agent-scale/src/mcp_sync.rs:325-369 | after any such run a sync of clients whose claimed entries nobody changed is refused exactly when a desired alias is taken by an entry the manifest does not claim |
| SyncRuns.EditIsKeptUnlessDoomed | crates/agent-scale/src/mcp_sync.rs:186-192 | an edit of a configuration is kept exactly when no pending journal is about to replace that file |
| Framing.HeaderRoundTrip | crates/transport/src/lib.rs:286-298 | building and splitting a header undo each other on everything accepted |
| Framing.FrameLayout | crates/transport/src/lib.rs:28-35 | on the wire a frame is its tag's number, the payload's length in four bytes with the low byte first, and the payload |
| Framing.ByteStream.ReadFrame | crates/transport/src/lib.rs:316-341 | a clean end is reported exactly for an empty stream; a frame is returned only if the stream began with its encoding, which is then consumed |
| Framing.ByteStream.WriteFrame | crates/transport/src/lib.rs:436-441 | a legal frame appends its encoding; an oversized one writes nothing |
| Framing.CutFrameIsAnError | crates/transport/src/lib.rs:444-457 | a frame cut anywhere inside is an error, never a clean end |
| Framing.ReadAll | crates/transport/src/lib.rs:444-457 | repeated reads give the frames of the stream or its first error |
| Framing.FramesRoundTrip | crates/transport/src/lib.rs:436-457 | the concatenated encodings of any legal frames read back as those frames and a clean end |
| Framing.CleanStreamsAreEncodings | crates/transport/src/lib.rs:444-457 | every stream that reads cleanly is the encoding of what was read |
| Framing.TruncationIsDetected | crates/transport/src/lib.rs:444-457 | a stream that stops early reads cleanly exactly when it stops between two frames, and then yields the frames before the cut |
| Framing.DatagramRoundTrip | crates/transport/src/lib.rs:77-119 | whatever encodes decodes to the same datagram |
| Framing.DatagramLayout | crates/transport/src/lib.rs:77-94 | what can be sent, and its bytes: the host's length, the port with the high byte first, the host, the payload |
| Framing.EncodedIsUtf8 | crates/transport/src/lib.rs:96-119 | whatever Unicode scalar values encode to is accepted as a host |
| Framing.Utf8IsEncoded | crates/transport/src/lib.rs:96-119 | and only that: every accepted host is the encoding of some scalar values |
| Framing.DecodedDatagramsAreEncodings | crates/transport/src/lib.rs:96-119 | whatever decodes is the one encoding of its datagram |
| Messages.Reader.ReadMessage | crates/as-edge/src/mcp_http.rs:65-97 | the first message ahead is returned and the others stay ahead; the call fails exactly on a failed read or an oversized line that comes before the next complete message; the buffer never passes 16 MiB |
| Messages.ReadSession | crates/as-edge/src/mcp_http.rs:170-170 | reading until nothing is left yields the session's messages or its first error, for every sequence of frames and failures |
| Messages.SessionIsItsBytes | crates/as-edge/src/mcp_http.rs:65-97 | a session of DATA frames fails exactly when some frame, with the unterminated line before it, passes 16 MiB; otherwise its messages are those of the concatenated bytes |
| Messages.CutsDoNotMatter | crates/as-edge/src/mcp_http.rs:65-97 | two ways of cutting the same bytes that both stay within the limit give the same messages |
| Messages.LinesRoundTrip | crates/as-edge/src/mcp_http.rs:65-97 | lines sent with LF or CRLF come back one for one, and an unterminated tail comes back as it is |

## Left out

- AuthorizationTheorems.SessionSafety: holds of runs without a raced update, and is false otherwise; `SessionsSafeExactly` is the if-and-only-if.
- Journal.Project.CommitPrepared: the journal file is kept apart from the outputs, as its fixed path is never among them.
- Reconcile.UserWorkIsNeverLost: a sync is one step, so an edit made between its reading and its commit is outside it; one made between a crash and its recovery is overwritten exactly as `EditIsKeptUnlessDoomed` says.
- Reconcile.Reconcile: aliases are visited in an arbitrary order, where the source visits them sorted; on several conflicts the source names the first.
- The order of listings: the sorted order of persisted revocations, topologies and overviews.
- HTTP routing, request timestamps and nonces, retries, admission semaphores, the watch registry and long-poll wake-ups.
- Cryptography, certificate requests, base64 and JSON encodings, parsing of endpoint ids and URLs.
- SQLite migrations and decode errors while loading, file locks, permissions and temporary files; transactions and renames are atomic.
- The `bootstrap` command, which repeats `init` and invitation creation.
- The saturating relay revision in `revocation_change`: a commit is refused before it could saturate.
- The relay list a map installs in an Edge or a client, and the relay half of `reload_edges`.
- The client's cached map across processes, which is loaded and saved without a lock.
- JSON and TOML syntax: that a printed document reads back as itself is assumed; the catalogs and health checks of `mcp sync` are given.
- The MCP registry file, output budgets, HTTP bridging, blobs, SOCKS5, subprocesses and the command line.
