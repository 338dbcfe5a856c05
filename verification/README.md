# Verified model of iroh-tunnel's protocols

iroh-tunnel carries TCP streams and UDP flows between an *Access* process next to the
clients and a *Serve* process next to the target, over one encrypted connection per
service. This project models the parts of it where state is shared between tasks,
processes or hosts, and proves what those parts promise over every run.

Check everything with `dafny verify dfyconfig.toml` (Dafny 4.11).

## How it is organised

| file | component |
|---|---|
| `Wire.dfy` | the UDP frame: big-endian flow id and payload |
| `Flows.dfy` | the two flow tables and the per-flow queue, as values, over whole histories |
| `FlowClasses.dfy` | the same as objects updated in place, and the counter block |
| `ServeReceive.dfy` | Serve's receive loop of one connection: one fate per datagram |
| `Slots.dfy` | the service cap, one atomic operation at a time, over all connections and sinks |
| `Tunnel.dfy`, `TunnelProofs.dfy`, `TunnelReplies.dfy`, `TunnelRuns.dfy` | the UDP tunnel end to end |
| `Ownership.dfy`, `MachineTwins.dfy` | role locks on two tiers and the identity check between roles; twins of different users |
| `Dialer.dfy` | the connection one service's channels share |
| `StatusFlush.dfy` | the status file: flush task, stop, removal |
| `ConfigStore.dfy` | the config file: first starts, mutations, key generation, edits |
| `PeerTracker.dfy` | reference counts of connected peers |
| `PathReport.dfy`, `PathPoller.dfy` | canonical path reports and path-change lines |
| `DialRetry.dfy` | the bounded dial-retry loop |
| `Pin.dfy` | the pin recorded in a service registration |
| `Version.dfy` | release version precedence |
| `Common.dfy`, `Digits.dfy`, `Sorting.dfy` | shared values; decimal text; sorting and collapsing |

Concurrent protocols are transition systems. An `Action` is what one task or process does
between two points where another can interfere; `Enabled` says when it may happen, `Apply`
what it does, and `After(actions)` is the state a whole run leads to, if it is a run. The
theorems hold for every list of actions: every interleaving, loss, reordering, expiry,
cancellation and crash. What a clock, a peer, the kernel or the file system decides is a
parameter of the action. Loops and objects that the program updates step by step are methods
and classes, proved against functions about which the properties are then proved.

Some statements that one might expect are false of the code. For each there is a concrete run,
and what does hold is proved for all runs:

- The comment on `get_or_dial` (`crates/engine/src/access/run_access.rs`, 443-454) says that a
  successful dial cannot be discarded by a cancellation. Storing the connection waits for the
  `state` lock first (`Dialer.SuccessfulDialCanBeLost`). A dialled connection is lost exactly
  when its channel is cancelled during that wait (`Dialer.DialsAreStoredUnlessCancelledFirst`).
- Two processes of one user with one identity in both roles can run together exactly when an
  access to a user-tier owner record failed, since a failure is only logged
  (`Ownership.TwinsCanRunIff`); machine-tier accesses do not matter for it. The protection lasts
  until a stopping process removes its record, not until it frees its lock
  (`Ownership.TwinRunsWhileTheOtherStops`).
- Processes of different users with one identity in both roles can run together too. A process
  with access to the machine tier, shared or exclusive, that looks there after an exclusive holder
  of the other role has put the identity on record is refused (`MachineTwins.LateTwinIsRefused`).
  So two exclusive holders can run together exactly when a machine-tier access failed
  (`MachineTwins.HoldersCanRunIff`). A process without an exclusive hold puts no record there, so a
  holder that comes later does not see its identity: it can run beside such a holder exactly when
  it looked before the holder wrote its record, or has no machine tier, or that write or its own
  read failed (`MachineTwins.TwinBesideHolderIff`). In `Ownership.UnseenUserRunsBesideSystem` and
  `Ownership.SharedTwinRunsBesideSystem` it looked first. Within one role the lock keeps an exclusive
  holder alone once its file exists (`Ownership.LatecomersHoldTheMachineLock`).
- Removing one's own status file reads its pid first, so it can delete a file that another
  process saved in between, and exactly then (`StatusFlush.RemovalIsOwnUnlessRaced`).
- The UDP status snapshot loads two counters one after the other, and its subtraction can
  saturate (`Slots.SnapshotSubtractionCanSaturate`): exactly when the flows quarantined between
  the loads, less those whose quarantine ended, outnumber those that were not quarantined at the
  first (`Slots.SnapshotSaturatesIff`). That takes a reservation in between
  (`Slots.SnapshotSoundWithoutReservations`).

## Model

| member | source | states |
|---|---|---|
| Wire.BigEndianRoundTrip | crates/engine/src/udp/decode.rs:6-12 | the four header bytes of any 32-bit id read back as that id |
| Wire.DecodeInvertsFrame | crates/engine/src/udp/encode.rs:6-11 | decoding a frame gives back its flow and its unchanged payload, for every flow and payload |
| Wire.DecodeIsExactInverse | crates/engine/src/udp/decode.rs:6-12 | a datagram decodes to a flow and payload exactly when it is their frame, and is malformed exactly when it is nobody's frame |
| Wire.PayloadLimitIsExact | crates/engine/src/udp/payload_limit.rs:6-10 | a payload is within the limit exactly when its frame fits the connection's datagrams, and no limit is offered exactly when no nonempty payload would fit |
| Wire.Encode | crates/engine/src/udp/encode.rs:6-11 | the growing buffer ends as the frame of the flow and the payload |
| Flows.ClientRunInvariant | crates/engine/src/udp/types.rs:265-329 | over any sequence of touch, client_of and expire: the two maps are inverse bijections, ids are issued as 0, 1, 2, ... and never again, live ids are below `next` and belong to the client they were issued to, the cap holds |
| Flows.TouchAnswer | crates/engine/src/udp/types.rs:270-291 | a client with a live flow keeps it and is never refused; a new one is refused for the cap exactly at the cap, and for exhaustion exactly when below the cap and all 2^32-1 ids are spent; a refusal changes nothing |
| Flows.IssuedStrictlyIncrease | crates/engine/src/udp/types.rs:270-291 | ids issued by one incarnation strictly increase, at most 2^32-1 of them |
| Flows.ExhaustedForever | crates/engine/src/udp/types.rs:279-285 | once every id is spent no later run issues another |
| Flows.EveryNumberIsIssued | crates/engine/src/udp/types.rs:270-329 | every number of ids up to 2^32-1 is issued by some run, under any cap that admits a flow, so exhaustion is reachable |
| Flows.ExpiryEndsExactlyTheIdle | crates/engine/src/udp/types.rs:315-329 | expiry ends exactly the flows idle for the timeout, removes them from both maps, and leaves every other flow and client as it was |
| Flows.PeerRunInvariant | crates/engine/src/udp/types.rs:363-433 | over a whole connection: `highest` is the largest id ever bound or refused, every live id is at or below it, each id is bound at most once, the per-peer cap holds |
| Flows.AdmissionAnswer | crates/engine/src/udp/types.rs:365-376 | live ids are recognised, an id is new exactly when it is above every id ever bound or refused, and the insertion that follows overwrites no live upstream |
| Flows.SpentForever | crates/engine/src/udp/types.rs:365-388 | an id once bound or refused is never admitted as new again, whatever happens later |
| Flows.QueueRunInvariant | crates/engine/src/udp/types.rs:202-224 | the queue never holds more than max(depth, 1), and what the writer took out is always a prefix of what was accepted |
| FlowClasses.ClientFlows.Touch | crates/engine/src/udp/types.rs:270-291 | the object ends in the state, and gives the answer, of the value-level table |
| FlowClasses.ClientFlows.ClientOf | crates/engine/src/udp/types.rs:294-302 | the client of a live flow, whose idle time starts over; nothing else changes |
| FlowClasses.ClientFlows.Expire | crates/engine/src/udp/types.rs:315-329 | the loop removes exactly the idle flows and reports how many |
| FlowClasses.PeerFlows.Admit | crates/engine/src/udp/types.rs:365-376 | verdict and new table of the value-level function; a live flow is refreshed |
| FlowClasses.PeerFlows.Refuse | crates/engine/src/udp/types.rs:379-381 | the refused id is spent |
| FlowClasses.PeerFlows.Insert | crates/engine/src/udp/types.rs:384-387 | the flow is live with its upstream and its id is spent |
| FlowClasses.PeerFlows.Expire | crates/engine/src/udp/types.rs:422-433 | every idle flow ends and each of their upstreams is returned once, in whatever order the map yields |
| FlowClasses.PeerFlows.DrainAll | crates/engine/src/udp/types.rs:413-419 | every upstream is returned once; spent ids stay spent |
| FlowClasses.UdpStats.RecordDrop | crates/engine/src/udp/types.rs:85-102 | exactly the counter of the reason goes up, by one |
| FlowClasses.UdpStats.TryOpenFlow | crates/engine/src/udp/types.rs:116-131 | a slot is reserved exactly when fewer than `max` are held |
| FlowClasses.FlowQueue.Push | crates/engine/src/udp/types.rs:216-224 | a full queue drops the newest datagram, a queue without a writer reports closed, otherwise it joins at the end |
| FlowClasses.DrainQueue | crates/engine/src/udp/drain_queue.rs:7-15 | the writer loop, beside a producer that goes on pushing, hands the sink everything accepted and not yet handed over, in order, each once |
| ServeReceive.UdpConnection.Receive | crates/engine/src/serve/run_serve.rs:739-832 | every datagram has one fate, decided by decoding, the verdict, the two caps, the socket and the queue: queued, or exactly one drop counted for it, or stopped while a socket opened. Others may use the service's counters meanwhile, also while the socket opens or between the admission and the push: counters grow by the fate and by what they counted, and their slots move only by their acts |
| ServeReceive.UdpConnection.ReceiveKnown | crates/engine/src/serve/run_serve.rs:744-831 | a malformed datagram and one of a spent flow are dropped and counted; a live flow still has its queue when the table is locked again, whatever others did since the admission, and its writer runs, so the push is accepted or meets a queue that is full by then, and the missing-upstream and closed cases do not occur |
| ServeReceive.UdpConnection.ReceiveNew | crates/engine/src/serve/run_serve.rs:762-827 | the connection's cap, then the service's, then the socket; a refusal spends the id, gives a reserved slot back and counts one cap drop; a stop gives the slot back and counts nothing; success binds the flow to a new queue with the datagram in it |
| ServeReceive.UdpConnection.Quarantine | crates/engine/src/serve/run_serve.rs:862-912 | exactly the ended flows leave the table, each with its writer ended and its slot passed to a sink |
| ServeReceive.UdpConnection.Loop | crates/engine/src/serve/run_serve.rs:731-843 | among whatever other connections, relays, writers and sinks do with the service's counters: one fate per datagram read, every counter grows by exactly the drops among the fates plus those that others counted, the slots in use always add up, and at the end this connection holds none that is not a sink's |
| Slots.SlotsConserved | crates/engine/src/serve/run_serve.rs:847-917 | in every interleaving of atomic operations: held slots are the live, reserved and ending flows plus the unreleased sinks, at most `max_flows`; quarantined never exceeds held; the per-connection cap holds |
| Slots.ReleaseNeverSaturates | crates/engine/src/udp/types.rs:73-82 | every saturating release finds its counter at one or more and lowers it by exactly one |
| Slots.NothingHeldAfterJoin | crates/engine/src/shutdown.rs:86-115 | once connections and sinks are joined both counters are zero |
| Slots.RefusedOnlyWhenFull | crates/engine/src/udp/types.rs:116-131 | a flow is refused for the service cap only if all slots were in use at the load the refusal rests on |
| Slots.SnapshotSubtractionCanSaturate | crates/engine/src/udp/types.rs:160-168 | a run in which the snapshot's first load is smaller than its second |
| Slots.SnapshotSaturatesIff | crates/engine/src/udp/types.rs:160-168 | for any two loads in any run: the subtraction saturates exactly when the marks set in between, less those released, exceed the flows not quarantined at the first load; the shortfall is at most the reservations in between |
| Slots.SnapshotSoundWithoutReservations | crates/engine/src/udp/types.rs:160-168 | without a reservation between the loads it never saturates |
| Slots.SnapshotExactIff | crates/engine/src/udp/types.rs:160-168 | loaded from one state, the snapshot's active flows are the unquarantined slots of connections plus one per sink that stands between its two releases, so it is exact if and only if there is none |
| TunnelProofs.RequestsComeFromTheirClient | crates/engine/src/access/run_access.rs:604-740 | end to end, over loss, reordering, expiry, refusals and reconnects: every payload handed to the socket of a flow of this Access was sent by the one client that owns the flow, in order of acceptance |
| TunnelProofs.RequestsHandedOverOnce | crates/engine/src/serve/run_serve.rs:739-832 | no client datagram is handed over twice, on any sockets of any connections |
| TunnelProofs.RepliesReachTheirClient | crates/engine/src/access/run_access.rs:744-773 | a reply that reaches a client was read, unchanged, on the socket of a flow that this client owns |
| TunnelReplies.RepliesDeliveredOnce | crates/engine/src/access/run_access.rs:744-773 | no reply read on a socket is delivered to a client twice, in any run |
| TunnelProofs.OneSocketPerFlow | crates/engine/src/serve/run_serve.rs:774-805 | a flow of a connection is given at most one socket, ever |
| TunnelProofs.OwnersArePermanent | crates/engine/src/access/run_access.rs:676-740 | the owner of a flow, the flow of a socket and the recorded datagrams never change later |
| TunnelRuns.RequestAndReplyRun | crates/engine/src/access/run_access.rs:604-773 | for every client, request and answer there is a run in which the request waits at its flow's socket and the answer is delivered to that client |
| Ownership.RoleHeldOnce | crates/host/src/ownership.rs:345-387 | for any number of processes, users, probes and crashes: at most one process of a user directory holds a role |
| Ownership.MachineHolderIsAlone | crates/host/src/ownership.rs:405-445 | an established process holds its role, and beside an exclusive machine holder nobody holds that machine lock, probes included |
| Ownership.NoTwinsInOneDirectory | crates/host/src/ownership.rs:473-496 | two processes of one user directory, in different roles with one identity, are never both past the identity check, from the check up to the removal of their records, when their accesses to the user tier's records succeeded |
| Ownership.NoTwinsOnTheMachine | crates/host/src/ownership.rs:473-496 | the same for two exclusive machine holders of any users and the accesses to the machine tier's records |
| MachineTwins.LateTwinIsRefused | crates/host/src/ownership.rs:473-496 | over every run: a twin of any user that has not looked on the machine tier, or not even started, when an exclusive holder of the other role has the identity on record there is never past the check, and so never runs, while that record stays, given access to that tier, shared or exclusive, and no failed read |
| MachineTwins.HoldersCanRunIff | crates/host/src/ownership.rs:473-496 | for every outcome of the four machine-tier record accesses: some run has two exclusive holders of different users running with one identity exactly when not all of them succeed |
| MachineTwins.TwinBesideHolderIff | crates/host/src/ownership.rs:473-496 | a process without an exclusive hold can run beside an exclusive holder of another user with its identity exactly when it looked before the holder wrote its record, or has no machine tier, or the write or its read failed |
| MachineTwins.LookedFirstOrLate | crates/host/src/ownership.rs:473-496 | in every run of such twins either the twin looked before the holder wrote or the holder wrote before it looked, and never both |
| Ownership.RunningIsPastChecks | crates/host/src/ownership.rs:473-496 | a process that runs has passed the check on both tiers without a conflict |
| Ownership.TwinsCanRunIff | crates/host/src/ownership.rs:473-496 | for every outcome of the four user-tier record accesses: some run has both twins running exactly when not all of them succeed |
| Ownership.TwinRunsWhileTheOtherStops | crates/host/src/ownership.rs:451-466 | a run in which a stopping process has removed its record, still holds its lock, and its twin gets past the check |
| Ownership.UserTierFindsRival | crates/host/src/ownership.rs:565-577 | whoever looks after a rival has published finds its lock held, goes on to read its record, and a successful read is a conflict |
| Ownership.TwinsRunAfterFailedWrite | crates/host/src/ownership.rs:251-274 | a run in which a failed record write lets both twins run |
| Ownership.UnseenUserRunsBesideSystem | crates/host/src/ownership.rs:405-445 | a run in which a user process that found no machine lock file runs beside a later system process, in the same role or with the same identity in the other one |
| Ownership.LatecomersHoldTheMachineLock | crates/host/src/ownership.rs:405-445 | once a role's machine lock file exists, whoever starts later with access to that tier and comes to own the role holds the lock, and no one else owns it exclusively |
| Ownership.SharedTwinRunsBesideSystem | crates/host/src/ownership.rs:473-496 | a run in which an exclusive holder and a shared holder of the other role, with one identity and every access successful, both run |
| Ownership.LockFileRemains | crates/host/src/ownership.rs:451-466 | a crash leaves the machine lock file behind, unlocked |
| Ownership.SharedHoldersCoexist | crates/host/src/ownership.rs:405-445 | shared holders of different users coexist on one machine lock |
| Dialer.OneDialAtATime | crates/engine/src/access/run_access.rs:455-505 | for any number of channels cancelled at any await: at most one dial, and only while nothing is cached |
| Dialer.ReplacedOnlyAfterEviction | crates/engine/src/access/run_access.rs:455-531 | every cached connection but the last was evicted by an invalidation naming it, and nothing is cached twice |
| Dialer.OneConnectionPerEviction | crates/engine/src/access/run_access.rs:455-531 | connections ever cached are the evictions plus the one cached now |
| Dialer.CacheChangesOnlyByName | crates/engine/src/access/run_access.rs:520-531 | a stale invalidation evicts nothing; a store finds the cache empty |
| Dialer.TasksServeTheLastConnection | crates/engine/src/access/run_access.rs:465-505 | un-aborted helper tasks belong to the connection stored last, at most one watcher and one poller |
| Dialer.DialsAreStoredUnlessCancelledFirst | crates/engine/src/access/run_access.rs:463-505 | every connection ever dialled is stored, or waits to be, or its channel was cancelled in that wait, and never two of these: a dial is lost exactly in the third case |
| Dialer.SuccessfulDialCanBeLost | crates/engine/src/access/run_access.rs:463-466 | a run in which a dialled connection is dropped by a cancellation before it is stored |
| StatusFlush.RemovedStaysRemoved | crates/host/src/runtime/skeleton.rs:21-30 | once the owner has removed the file, no save is in flight, none starts, and the file never comes back as this run's |
| StatusFlush.RemovedOnlyWhenQuiesced | crates/engine/src/runtime/support.rs:22-43 | a task that timed out, was aborted or panicked keeps the file |
| StatusFlush.SuccessiveSavesDiffer | crates/engine/src/serve/run_serve.rs:419-449 | two successive successful saves never write the same observation |
| StatusFlush.PublishedIsRendered | crates/engine/src/access/run_access.rs:346-374 | back at its select without a failed save, the task has published what it last rendered, and the file holds it unless another process touched it |
| StatusFlush.RemovalIsOwnUnlessRaced | crates/host/src/status/writer.rs:254-318 | what the removal finds is another process's file exactly when, after the pid was read, that process saved and did not remove its file again |
| StatusFlush.SaveLandsAfterTimeout | crates/engine/src/runtime/support.rs:22-43 | a run in which a save of an aborted task lands after the owner is done: removing the file then would be undone |
| StatusFlush.RacedRemovalDropsForeignFile | crates/host/src/status/writer.rs:273-318 | a run in which the removal deletes another process's fresh file |
| ConfigStore.AlwaysInitialOrValidated | crates/host/src/config/store.rs:135-175 | with a crash at any write step: the config is the initial file or a complete validated document without retired fields |
| ConfigStore.CommitsFormAChain | crates/host/src/config/mutate.rs:37-54 | no update is lost: each commit was computed from exactly what the one before it wrote |
| ConfigStore.EditReplacesItsOriginal | crates/host/src/config/edit.rs:47-90 | a saved edit replaced exactly the text it was copied from, by the edited document without retired fields, once |
| ConfigStore.AnswersAgree | crates/host/src/config/store.rs:265-291 | while no commit replaced a stored key, everyone who was told a key was told the one in the file |
| ConfigStore.OnlyConsentRotates | crates/host/src/config/keygen.rs:20-49 | a stored key is replaced only by the commit of an edit or of a consented key generation |
| ConfigStore.StartsAgree | crates/host/src/config/store.rs:265-291 | starts, service changes and key generations without consent, however they race, are all told the one key that stays in the file |
| ConfigStore.ReportsAreTrue | crates/host/src/config/edit.rs:47-90 | a reported change, save or generated key was committed, and whatever is reported as kept, refused, conflicting, invalid, unchanged or failed left the file alone; only a start may also report a key it found |
| PeerTracker.Tracker.Track | crates/engine/src/serve/run_serve.rs:304-321 | one more live guard of the peer and service, and the registry counts the live guards |
| PeerTracker.Tracker.Untrack | crates/engine/src/serve/run_serve.rs:325-340 | one guard fewer if it was live; no zero count and no empty peer is left, and the decrement never underflows |
| PeerTracker.Tracker.Snapshot | crates/engine/src/serve/run_serve.rs:344-361 | each peer with a live guard once, in order, with exactly its live services in strict order |
| PeerTracker.SnapshotIsDetermined | crates/engine/src/serve/run_serve.rs:344-361 | a snapshot depends on the live guards only, not on map order |
| PeerTracker.CountsDetermine | crates/engine/src/serve/run_serve.rs:296-341 | the live guards determine the registry |
| PeerTracker.UntrackUndoesTrack | crates/engine/src/serve/run_serve.rs:304-341 | tracking a connection and dropping its guard leaves no trace |
| PathReport.ReportsAgreeIff | crates/engine/src/conn_path/peer_path_report.rs:11-41 | two snapshots give one report exactly when they have the same set of reportable rows and the same multiset of local sockets |
| PathReport.ReportIsStrictlyOrdered | crates/engine/src/conn_path/peer_path_report.rs:73-82 | each reportable row once, active first, relay before direct, by address |
| PathReport.RowsAreTheEntries | crates/engine/src/conn_path/peer_path_report.rs:49-64 | every relay and direct address becomes a row, a custom transport never does |
| PathReport.DuplicateSocketsShow | crates/engine/src/conn_path/peer_path_report.rs:28-41 | local addresses are sorted but not collapsed |
| Sorting.SortIsTheResult | crates/engine/src/conn_path/peer_path_report.rs:73-82 | under a total order every sorted permutation is the same, so a library sort has one possible result |
| Sorting.CanonicalAgreesIff | crates/engine/src/conn_path/peer_path_report.rs:23-27 | sorting and collapsing forgets order and multiplicity and nothing else |
| PathPoller.Poll | crates/engine/src/access/run_access.rs:945-972 | over any snapshots, one line per adjacent pair of visible snapshots with different active sets, where all-inactive ones, the baseline included, are invisible |
| PathPoller.LinesNameKindsAndChain | crates/engine/src/conn_path/paths.rs:109-168 | no line says `none`, and each line starts from the kinds the previous one ended in |
| PathPoller.SilentIff | crates/engine/src/conn_path/paths.rs:145-168 | the poller is silent exactly when all visible snapshots have one active set |
| PathPoller.DiffReportsActiveChanges | crates/engine/src/conn_path/paths.rs:34-75 | nothing for equal active sets; otherwise a kind is added or removed exactly when some address of it appeared or went |
| PathPoller.Diff | crates/engine/src/conn_path/paths.rs:34-75 | differences listed in any order, sorted and collapsed give that summary |
| PathPoller.KindsInAnyOrder | crates/engine/src/conn_path/paths.rs:54-66 | the order in which a hash set yields its elements does not show in the summary |
| PathPoller.RenderedKindsAre | crates/engine/src/conn_path/paths.rs:109-125 | the kinds in a line depend on the active set alone |
| PathPoller.EstablishedIsPendingIff | crates/engine/src/conn_path/paths.rs:99-104 | `paths pending` exactly when there is no report or no active path |
| DialRetry.ConnectWithRetry | crates/engine/src/runtime/support.rs:137-175 | the loop terminates, and its dials, verdict and end are those of the recursive specification |
| DialRetry.RetryIsScheduled | crates/engine/src/runtime/support.rs:107-175 | for any failure pattern attempt k may take min(5k, 20) s and is followed by min(2^(k-1), 30) s of backoff, both cut at the deadline; nothing starts early or after the deadline |
| DialRetry.VerdictIsTheLastDial | crates/engine/src/runtime/support.rs:149-166 | a connection is reported exactly when the last dial connected before the task saw its limit pass, every earlier one having failed |
| DialRetry.OverByTheDeadline | crates/engine/src/runtime/support.rs:132-175 | with punctual timers the loop ends by the deadline; only the last attempt and the last sleep can end past it, each by at most its own lateness |
| DialRetry.DialsPossibleIff | crates/engine/src/runtime/support.rs:107-175 | n+1 dials are possible exactly when the first n backoffs end before the deadline |
| DialRetry.FiveDialsInThirtySeconds | crates/engine/src/access/run_access.rs:777-777 | the client budget of 30 s allows five dials and never six |
| Pin.FindInvertsRecord | crates/host/src/service/pin.rs:37-61 | for every path and uid, a body whose first pin comment line is the record, in either form and with any indent and line end, reads back as exactly that pin |
| Pin.FindPin | crates/host/src/service/pin.rs:37-61 | the scan over lines and fields computes the specification |
| Pin.OnlyCommentsPin | crates/host/src/service/pin.rs:38-45 | a pin comes only from a comment line of the right kind |
| Pin.UnescapeInvertsEscape | crates/host/src/service/pin.rs:78-108 | unescaping gives back every byte string |
| Pin.EscapeIsInjective | crates/host/src/service/pin.rs:78-89 | different paths have different escapes |
| Pin.EscapePath | crates/host/src/service/pin.rs:78-89 | the loop over bytes computes the escape |
| Pin.UnescapeText | crates/host/src/service/pin.rs:92-108 | the index loop computes the inverse, error cases included |
| Pin.RecordIsLegalInComments | crates/host/src/service/pin.rs:30-32 | the record has no `--` and no line break, so it is legal in an XML comment (section 2.5 of XML 1.0) |
| Version.ParseIsTheMatch | action-src/src/domain/version.ts:6-6 | parsing finds the pattern's groups exactly when it matches, and they are the only ones |
| Version.CompareVersions | action-src/src/domain/version.ts:40-54 | the loops compute the comparison, or name the string that is not a version |
| Version.CmpPre | action-src/src/domain/version.ts:20-38 | the identifier loop computes the recursive comparison |
| Version.ComparisonIsATotalPreorder | action-src/src/domain/version.ts:40-54 | reflexive, antisymmetric up to 0, total, transitive, and equal versions compare alike with any third |
| Version.ComparisonIsPrecedence | action-src/src/domain/version.ts:20-54 | the order is precedence as in section 11 of Semantic Versioning 2.0.0, and 0 exactly when numbers and identifiers agree up to numeric value |
| Version.PaddedVersionsCompareEqual | action-src/src/domain/version.ts:6-6 | the pattern also accepts zero-padded numbers and empty identifiers, so different strings can compare equal |

## Left out

- FlowClasses.UdpStats.TryOpenFlow: states each call as one step; its load and compare-exchange loop is opened up and interleaved in `Slots`.
- Ownership.NoTwinsInOneDirectory: speaks of successful user-tier record accesses, because the code logs a failed one and goes on; `TwinsCanRunIff` shows that this is exactly what is needed.
- ConfigStore.AnswersAgree: speaks of runs in which no commit replaced a stored key, because an edit or a consented key generation may; `OnlyConsentRotates` says that nothing else does.
- TunnelProofs.RequestsComeFromTheirClient: is safety only; Serve does not promise to admit a flow, and nothing here says that a datagram arrives in the end.
- Access's drop counters: its loops do not count every lost datagram, so only Serve's receive path has fate accounting.
- QUIC, relays and NAT traversal: a connection is a number, never reused, with a lossy reordering bag of datagrams in each direction.
- tokio: tasks, timers, channels and locks are atomic steps, clocks and lists; only the status flush task may panic.
- Port reuse and the length of a quarantine: a quarantined socket drops what it reads; when its sink ends is arbitrary.
- When a writer or a relay of a flow ends: at any time, which covers more runs than the program has.
- TCP streams, delivery acknowledgement, DNS and socket creation.
- Lock files and directories: permissions, creation modes and path trust are a capability per process; only lock states, owner records and success or failure are modelled.
- The datagram limit that the counter block keeps for the status file.
- Status saves through verified directory handles, the legacy file name, and the removal on a forced exit.
- Parsing and rendering of TOML and JSON: a document stands for its own text, with a schema as an arbitrary predicate; the order of comments and keys is not represented.
- Unlocked hand edits of the config file, and the unvalidated save that only tests use.
- Rejected edits are kept beside the config; that file is not modelled.
- Library sorts, `dedup` and hash maps are modelled by their results; `Sorting.SortIsTheResult` says why that is enough for sorts.
- Counters and times are unbounded naturals; flow ids and uids have their 32-bit range.
- JavaScript numbers beyond 2^53, the `latest` and `v` prefixes of a requested version, and the Windows form of unescaping, which also checks UTF-8.
- Command line, prompts, help and exit codes, service backends, self-update, release download and the remaining GitHub Action adapters.
- docs/udp-integration-contract.md is not part of this model; constants and edge cases follow the code.
