# A verified model of the clipfan mesh

clipfan is a clipboard mesh with no central server. This Dafny project models its
three connected parts and proves what they promise:

1. **Clip replication.** Hosts poll and receive clips by last write wins; per-peer
   sessions carry them with a one-slot queue, acks and a timer; gateways push the
   current clip back. Proved: convergence of every quiescent mesh, coverage and
   accounting of pending clips under any interleaving of sessions, bounded floods,
   framing and replay protection of the streams, and that the mesh comes to rest once
   copying stops.
2. **Revisioned configuration and provisioning.** A compare-and-swap JSON document
   holds a five-state peer machine with logs and tombstones; an applicator threads
   revisions through many writes; a provisioner configures two hosts in two phases.
   Proved: accepted writes parse back to exactly what was checked, one winner per
   revision, exactly when a typed update loses what the typed configuration does not
   know, secret provenance over whole runs, contiguity of an apply under interference,
   resumability of provisioning after any failed attempts, the two-phase barrier, and
   that a provisioned pair is what the runtime admits.
3. **SSH text files, key files and discovery.** Round trips and fixpoints of
   `authorized_keys` and `known_hosts` upserts, the key reset as a transaction, the
   roster walk as a closure.

`dafny verify dfyconfig.toml` checks everything.

## How it is built

Each file is one module. State that the Go code changes in place is a class
(`Daemons.Daemon`, `Gateways.Gateway`, `SeenSets.SeenSet`, `SyncManagers.SyncManager`,
`PeerLoops.PeerLoop`, `Applicators.Applicator`, `HostApplies.HostApplicator`,
`Provisions.Executor`,
`NonceCaches.HelloCache`, `NonceCaches.HttpCache`, `Streams.Reader`, `Streams.Receiver`,
`SyncKeyResets.KeyDirectory`, `Rosters.Walk`); its methods are proved against functions
on values, and runs are sequences of those functions' steps. Concurrency is a step
relation (`Meshes`, `Sessions`): time, failures and stale goroutines are steps.

| files | component |
|---|---|
| `SeenSet`, `Daemon`, `Gateway`, `Mesh`, `Settling`, `Flood`, `Hostnames` | clip replication, its convergence and its end |
| `SyncManager`, `Sessions`, `PeerLoop` | outbound peer sessions |
| `Stream`, `Delivery`, `NonceCache` | stream framing, sequence check, replay protection |
| `Json`, `Scrub`, `Config`, `Encoding`, `Document`, `Rewrites`, `PeerOps`, `PeerLists`, `PeerEffects`, `PeerTyped`, `RemoveHost`, `Maintenance`, `Store`, `Provenance` | the configuration store and the peer machine |
| `Applicator`, `Contiguity`, `HostApply`, `Progress`, `Resumption`, `Runs` | applying a pair's configuration on its hosts |
| `Admission`, `Provision`, `Barrier`, `Rerun` | provisioning a pair, again after failures, and runtime admission |
| `AuthorizedKeyLine`, `AuthorizedKeys`, `KnownHosts`, `SyncKeyReset`, `Roster` | SSH files, key files, discovery |
| `Text`, `Wrappers` | strings, options and results |

What the model takes from outside is a parameter: `Configs.Env` (string validators and
"~" expansion, with the facts used in `WellFormed`), `Streams.Codec` (frame encoding), `AuthorizedKeyLines.Rules` (paths and
public keys), `Applicators.World` and `Provisions.Driver` (other writers, failing
calls, remote results), `Maintenance.Planner` and `Maintenance.Reset` (listener planning,
what a fleet reset finds on disk), and the `fails` oracle of `SyncKeyResets.KeyDirectory`.
Configuration strings are values of `Jsons.Txt`, with a name for each string that the
code compares with; object keys are values of `Jsons.Key` likewise.

## Findings

- `AckLeavesUncovered`: coverage of a pending clip holds for the acks that this
  repository's receivers send. For any other ack it fails exactly when the ack names a
  frame in flight, does not settle the pending clip, and the clip is neither queued nor
  in another frame. `OlderAckStrands` is a run from the start in which an
  `ignored_older` ack leaves the clip pending with nothing queued, in flight or timed.
- `ReplayedIff`: the HTTP nonce cache forgets a nonce at exactly its retention, so a
  timely request that was accepted is accepted again exactly when the two receipts are
  the two edges of its window (`HttpReplayAtTheEdge` is one such request).
- `TypedUpdateKeepsExtrasIff`: a typed update that rewrites the ssh section drops its
  audit log, its tombstones, the migration logs of its peers and all unknown fields,
  because the typed configuration has none of them. `UntouchedKeepsExtrasIff`: an update
  that leaves the section alone rewrites it all the same exactly when the peer list is
  an empty array, or when a path still holds "~" before the first version.
  `NoOpLosesTombstone` and `FirstWriteLosesMigrationLog` are concrete updates that
  change nothing and lose a tombstone and a migration log. It happens in use: deleting
  the last peer leaves an empty array, so the next typed update forgets the tombstone
  that the deletion left (`LastDeletionIsForgotten`). The peer operations keep all of
  these fields (`PeerOpFrame`), and a peer that was created through the interface keeps
  its migration log in every run (`LogIsChain`).
- `ExchangeAgreesIffStampsDiffer`: two hosts that exchange their current clips agree
  exactly when the stamps differ, which is why convergence asks for distinct stamps.
  `EqualStampsSwap` has two hosts that copy at one instant and swap their clips for good.

## Model

| member | source | states |
|---|---|---|
| `SeenSets.SeenSet.Add` | internal/daemon/seen.go:22-34 | the member map and the insertion order stay one set: adding records the ID and evicts the oldest past the cap |
| `SeenSets.RecordedWindow` | internal/daemon/seen.go:22-34 | recording an ID turns the last 256 of the admitted log into the last 256 of the longer log |
| `SeenSets.AdmittedIsSpaced` | internal/daemon/seen.go:17-34 | an ID is admitted again only after 256 other IDs |
| `SeenSets.SizesAgree` | internal/daemon/seen.go:22-34 | the cap holds and every member is counted once in the order |
| `Daemons.Daemon.PollOnce` | internal/daemon/daemon.go:589-644 | the host state after a poll, with echo, path-text and safe-mode branches |
| `Daemons.Daemon.OnReceive` | internal/daemon/daemon.go:664-771 | the host state after a received clip: last write wins, seen IDs, echo, concealed clips and failed writes |
| `Daemons.Daemon.Restore` | internal/daemon/daemon.go:810-872 | the host state after restoring a history entry |
| `Daemons.ExchangeAgreesIffStampsDiffer` | internal/daemon/daemon.go:664-771 | two hosts that consider each other's current clip, text or image, agree after exchanging them if and only if the stamps differ; at equal stamps they swap |
| `Daemons.EqualStampsSwap` | internal/daemon/daemon.go:705-712 | two fresh hosts that copy different texts at one instant swap them, and a further exchange changes nothing |
| `Gateways.Gateway.PublishCurrent` | internal/cli/ssh_gateway.go:242-274 | one push per clip and stream; the number advances before the write and stays advanced when it fails |
| `Meshes.RunKeepsInv` | internal/daemon/daemon.go:589-771 | what every poll, restore, gateway poll, delivery, relay and reconnect keeps, over every run of any mesh |
| `Meshes.Converges` | internal/daemon/daemon.go:589-771 | in every quiescent mesh of every run, hosts joined by a path hold the same clip, the newest that any of them took over |
| `Settlings.WorkIsBounded` | internal/cli/ssh_gateway.go:242-274 | once copying stops, pushes and deliveries in any order number at most two for every clip a stream has yet to push and one for every clip on the way |
| `Settlings.Settles` | internal/cli/ssh_gateway.go:242-274 | from every reachable mesh pushes and deliveries alone make it quiescent within that bound |
| `Settlings.RestAgrees` | internal/daemon/daemon.go:589-771 | whatever happens after copying stops in a run, the work is bounded, and when it is done hosts joined by a path hold the same, newest clip |
| `Floods.SeenIsWindow` | internal/daemon/daemon.go:691-712 | along every run of a host its seen set is the last 256 of the IDs it recorded |
| `Floods.RelaysFarApart` | internal/daemon/daemon.go:691-771 | a host relays one clip ID twice only after recording 256 other, distinct IDs in between |
| `Floods.RelaysOnce` | internal/daemon/daemon.go:664-771 | in the flood of one clip over any finite mesh every host relays it at most once |
| `Floods.FloodEnds` | internal/daemon/daemon.go:664-782 | the flood of one clip is bounded by the copies under way and the links of hosts that have not seen it |
| `SyncManagers.SyncManager.Publish` | internal/daemon/ssh_session.go:182-217 | every targeted peer's pending clip, runtime mark and queue slot after a publication |
| `SyncManagers.SyncManager.Refresh` | internal/daemon/ssh_session.go:140-172 | which sessions survive a new peer list, which are cancelled with their pending state, which start |
| `SyncManagers.SyncManager.HandleAck` | internal/daemon/ssh_session.go:693-725 | an ack removes its number and settles the pending clip only for the current session |
| `PeerLoops.PeerLoop.SendState` | internal/daemon/ssh_session.go:599-615 | numbering, marking, writing and booking one frame, stale sessions and failed writes included, is the two send steps of the session relation |
| `PeerLoops.PeerLoop.OnAck` | internal/daemon/ssh_session.go:583-598 | after an ack the timer runs exactly while something is in flight |
| `PeerLoops.PeerLoop.SendPending` | internal/daemon/ssh_session.go:616-621 | the start of the main loop is the steps of the session relation: the pending clip is sent, the same clip in the queue is dropped, a stale session or failed write ends the attempt |
| `Sessions.MainLoopCoverage` | internal/daemon/ssh_session.go:560-641 | with receivers' acks, in every reachable main-loop state a pending clip is queued or in flight and the timer runs exactly when something is in flight |
| `Sessions.AckLeavesUncovered` | internal/daemon/ssh_session.go:693-725 | after an arbitrary ack in any main loop a covered pending clip is covered if and only if the ack names nothing in flight, settles the clip, or the clip is queued or in another frame |
| `Sessions.OlderAckStrands` | internal/daemon/ssh_session.go:693-725 | a run from the start in which an ignored_older ack leaves a clip pending with an empty queue, nothing in flight and no timer |
| `Sessions.StaleSessionIsInert` | internal/daemon/ssh_session.go:241-401 | a session that is not the current one for its peer changes neither pending nor runtime state |
| `Sessions.NoSilentLoss` | internal/daemon/ssh_session.go:140-217 | in every run a pending clip stops being pending only by a publication to its peer, a settling ack for a frame of that attempt carrying it, or the peer being dropped |
| `Sessions.FramesAreNumbered` | internal/daemon/ssh_session.go:599-615 | in every run the frames of an attempt carry the numbers 1, 2, 3, ..., and what is in flight under a number is the clip of the frame sent with it |
| `Streams.Reader.ReadFrameLine` | internal/transport/ssh_stream.go:468-506 | the line read is the one that reading in one piece would give, whatever the buffer boundaries, limits and early ends included |
| `Streams.ReadFrames` | internal/transport/ssh_stream.go:427-466 | any number of frames written back to back are recovered exactly |
| `Streams.Receiver.Accept` | internal/transport/ssh_stream.go:387-419 | a state frame is accepted if and only if it has the expected number and acceptable content, a null clip being told from a missing one; a gap or repeat leaves the number alone |
| `Streams.SenderIsAccepted` | internal/transport/ssh_stream.go:387-419 | the daemon sender's numbering makes the check never fire |
| `Streams.AcceptedIsNumbered` | internal/transport/ssh_stream.go:387-419 | all frames of an attempt are accepted only if they are numbered without gap or repeat |
| `Streams.ReceiveAttempt` | internal/transport/ssh_stream.go:352-419 | an attempt's frames written back to back are all recovered and all accepted, wherever the buffer cuts them |
| `Deliveries.AttemptIsAccepted` | internal/daemon/ssh_session.go:599-615 | in every run of the sessions the state frames of any attempt pass the receiver's sequence check, every one of them |
| `Deliveries.StreamIsAccepted` | internal/transport/ssh_stream.go:352-419 | so do they with acks and other frames in between |
| `Streams.Base64RoundTrip` | internal/transport/ssh_stream.go:307-319 | decoding the base64 of any bytes gives them back, whatever the padding |
| `Streams.ClipFits` | internal/transport/ssh_stream.go:32-33 | a 64 MiB clip sealed and in base64 fits the 90 MiB frame with 4 MiB of other fields, and exactly how much room the largest clip leaves |
| `NonceCaches.HelloCache.Remember` | internal/transport/ssh_stream.go:722-751 | a hello is new exactly when no unexpired entry has its key; both caps hold after every call and the eviction loops end |
| `NonceCaches.InsertIsSound` | internal/transport/ssh_stream.go:722-751 | every acceptance keeps the log free of repeats within the retention, unless 256 in the bucket or 8192 in all were accepted at or after the first |
| `NonceCaches.EvictIsSound` | internal/transport/ssh_stream.go:763-794 | evicting an oldest entry of a full pool loses only acceptances that were flooded |
| `NonceCaches.AcceptedAtMostOnce` | internal/transport/ssh_stream.go:284-305 | a hello that is timely at both receipts is in the log of acceptances twice only if it was flooded out in between |
| `NonceCaches.HttpCache.Accept` | internal/transport/nonce.go:21-41 | the pruned map and the verdict of one call |
| `NonceCaches.HttpAcceptsAgainIff` | internal/transport/nonce.go:21-41 | whatever calls come between, a nonce is accepted again if and only if at least the retention has passed since it was last accepted |
| `NonceCaches.ReplayedIff` | internal/transport/server.go:917-957 | a request that is timely at both receipts and was accepted is accepted again if and only if they are the two edges of its window and no call at the second came first |
| `NonceCaches.HttpReplayAtTheEdge` | internal/transport/server.go:17-18 | a concrete request that its skew window lets in twice |
| `Configs.ValidateTransport` | internal/config/ssh.go:77-135 | the validation loop with its seen and targets sets accepts exactly valid peers that pairwise differ in id and dialled target |
| `Encodings.SSHReadsBack` | internal/config/ssh.go:34-68 | decoding the encoding of any typed ssh section gives it back |
| `Documents.ScopedReadsBack` | internal/config/v2.go:188-242 | for every typed mutation a scoped update parses back to exactly the validated configuration at the next revision |
| `Rewrites.TypedUpdateKeepsExtrasIff` | internal/config/v2.go:524-558 | for every accepted typed update the logs, tombstones and unknown ssh fields stay if and only if the section is not rewritten or holds none of them; other top-level fields always stay |
| `Rewrites.UntouchedKeepsExtrasIff` | internal/config/v2.go:215-242 | an update that leaves the ssh section alone loses them exactly when the peer list is an empty array or a path is unexpanded before the first version |
| `Rewrites.NoOpLosesTombstone` | internal/config/v2.go:551-558 | a concrete document whose tombstone and unknown field are lost by an update that changes nothing |
| `Rewrites.FirstWriteLosesMigrationLog` | internal/config/ssh_local_material.go:36-64 | the first write of a document with an unexpanded path loses its peer's migration log |
| `PeerEffects.PeerOpReadsBack` | internal/config/ssh_peer_config.go:553-611 | every peer operation that is accepted parses back to exactly the validated configuration at the next revision |
| `PeerEffects.PeerOpFrame` | internal/config/ssh_peer_config.go:553-611 | a peer operation leaves its own peer as specified, every other peer, unknown top-level and ssh fields unchanged, and only adds to audit_log and remediation |
| `Stores.MaterialReadsBack` | internal/config/ssh_local_material.go:87-175 | an accepted update of the host's own material parses back to the material asked for, peers untouched |
| `HostRemovals.RemoveFromStaticPeers` | internal/config/remove_host.go:179-194 | the in-place filter keeps exactly the static peers that do not name the host, in order, and reports whether any did |
| `HostRemovals.StaticKeptAre` | internal/config/remove_host.go:179-194 | every other static peer is left as often as it was there, those that name the host not at all |
| `HostRemovals.RemovalReadsBack` | internal/config/remove_host.go:118-176 | an accepted removal parses back at the next revision to exactly the configuration without the host, its paths expanded |
| `HostRemovals.RemovalFrame` | internal/config/remove_host.go:118-224 | on any document, validated before or not, the repeated deletions are one filter: exactly the peers that name the host are gone, the others untouched and in order, and the logs only grow |
| `Maintenance.EditReadsBack` | internal/config/v2.go:188-242 | the same for the mutations that edit the typed configuration and the top level of the raw document together, as the listener repair and the fleet reset do |
| `Maintenance.RepairKeepsSection` | internal/config/listener_repair.go:120-150 | repairing the listener of a versioned document leaves its whole ssh section as it was unless its peer list is an empty array |
| `Maintenance.ResetOnlyWithoutPeers` | internal/config/fleet_reset.go:107-170 | a fleet reset goes through only where there is no peer, log, tombstone or unknown ssh field to lose, and adds no peer |
| `Stores.OneWinnerPerRevision` | internal/config/v2.go:492-522 | among any requests in any order, repairs, resets and removals included, those that succeed expect strictly increasing revisions, so one revision has one winner |
| `PeerOps.FindRawPeer` | internal/config/ssh_peer_config.go:1700-1711 | the search loop returns the first peer with the id or the first invalid id's error |
| `PeerOps.HasAbsenceProof` | internal/config/ssh_peer_config.go:1524-1556 | the backward scan is true exactly when the latest decodable proof says nothing was spawned |
| `Provenance.LogIsChain` | internal/config/ssh_peer_config.go:1010-1053 | for a peer created and driven through the interface, typed updates that leave the ssh section alone, host removals, listener repairs and fleet resets included, the migration log is always a chain of allowed edges from loopback_unprovisioned to the current state |
| `Provenance.ScanReadsLatestFailure` | internal/config/ssh_peer_config.go:1524-1556 | in provision_failed the scan returns exactly the latest failure's spawned flag |
| `Provenance.TombstoneIff` | internal/config/ssh_peer_config.go:1353-1374 | a deletion leaves a tombstone if and only if the state is secret or the latest failure had spawned its secret write |
| `Provenance.DeletionAccountsForSecrets` | internal/config/ssh_peer_config.go:1080-1118 | in every run, deleting a peer that ever held a secret, alone or with its host, appends a tombstone for it or its log holds a later cleanup or identity reset |
| `Provenance.GoneIsAccountedFor` | internal/config/ssh_peer_config.go:1080-1118 | in every run, whatever request it is that makes a peer which ever held a secret go away, a tombstone for it is appended or its log holds a later cleanup or identity reset |
| `Provenance.LastDeletionIsForgotten` | internal/config/v2.go:524-558 | when a deletion leaves no peer, the next typed update that leaves the ssh section alone drops every tombstone and the audit log |
| `Scrubs.ScrubFields` | internal/config/ssh_peer_config.go:1818-1894 | the scrub with the changed-flag shortcut equals the plain filter outside the preserved keys, and the flag is true exactly when something was removed |
| `Scrubs.ScrubbedHasNoSecret` | internal/config/ssh_peer_config.go:1818-1894 | the filter leaves no secret-like key at any depth of any tree |
| `Scrubs.ScrubIsIdempotent` | internal/config/ssh_peer_config.go:1818-1894 | scrubbing a scrubbed tree changes nothing |
| `Scrubs.RedactionHidesSecrets` | internal/config/ssh_peer_config.go:1764-1816 | a redacted peer has no secret-like key at any depth |
| `Applicators.Applicator.Apply` | internal/sshprovision/config_applicator.go:43-202 | the loops over the writes, with the revision and peer states held, are the fold over the writes up to the first error |
| `Contiguity.StageIsContiguous` | internal/sshprovision/config_applicator.go:43-199 | under any foreign writes a successful stage is what an undisturbed run from the revision read would do, and the final revision is the one read plus its writes |
| `Contiguity.AllIsContiguous` | internal/sshprovision/config_applicator.go:43-202 | the same for stage and ready in one |
| `Contiguity.ReadyIsContiguous` | internal/sshprovision/config_applicator.go:175-199 | the same for the ready phase when it writes at all |
| `Contiguity.RealMutatorsSwap` | internal/config/v2.go:492-522 | the configuration package's mutators are the compare-and-swap operations that contiguity needs |
| `HostApplies.HostApplicator.Apply` | internal/sshprovision/config_applicator.go:43-202 | the loops over several hosts and all writes are the folds over them up to the first error |
| `HostApplies.ApplySplits` | internal/sshprovision/config_applicator.go:43-281 | an apply on several hosts that succeeds is, on each of them, a successful apply on that host alone |
| `HostApplies.StageIsContiguousOnEveryHost` | internal/sshprovision/config_applicator.go:43-173 | so on each host it is a contiguous block of writes, and a foreign write on any of them makes the whole call fail |
| `Runs.StageRun` | internal/sshprovision/config_applicator.go:67-173 | a successful stage leaves the mutation's material, peer, proofs and a staged or ready state; every partial run leaves a supported document; with no failing call it succeeds on every supported document |
| `Runs.ReadyRun` | internal/sshprovision/config_applicator.go:175-199 | the same for readying a staged document |
| `Runs.ApplyCompletes` | internal/sshprovision/config_applicator.go:323-398 | after any partial run of stage and ready in one from a supported document a rerun reaches ssh_keys_ready with the mutation's key IDs |
| `Provisions.PlannedPairIsOk` | internal/sshprovision/pair_executor.go:212-256 | every pair that planning accepts meets what provisioning and its configuration writes need, and each host's administration endpoint is valid and its own |
| `Provisions.AdminOnlyRoutes` | internal/sshprovision/pair_executor.go:229-257 | administration endpoints never show in the plan |
| `Provisions.PlanIsSymmetric` | internal/sshprovision/pair_plan.go:76-115 | both hosts plan the same pair and writes, whichever of them is the local one |
| `Provisions.Executor.Run` | internal/sshprovision/pair_executor.go:118-209 | the driver calls made are the script up to the first failure and CompletedSteps is the prefix of the plan whose calls all succeeded |
| `Barriers.ConfigAfterProbes` | internal/sshprovision/pair_executor.go:169-209 | a run that changed any document had every earlier call succeed, both probes among them |
| `Barriers.ReadyAfterBothStaged` | internal/sshprovision/regular_ssh_driver.go:157-173 | a run that made any peer ready on any host had staged both hosts |
| `Barriers.ProvisioningAgrees` | internal/sshprovision/pair_executor.go:75-210 | after a successful run each gateway admits the other host with its key id, each session list holds the other with that key id, and both ends of the edge are healthy |
| `Reruns.EveryRunLeavesSupported` | internal/sshprovision/regular_ssh_driver.go:157-173 | whichever call of a run fails, both hosts are left with documents that the next run supports; a run in which nothing fails succeeds on supported documents |
| `Reruns.RerunCompletes` | internal/sshprovision/pair_executor.go:75-210 | after any number of attempts failing anywhere, a run in which nothing fails succeeds, makes both peers ready and leaves the hosts admitting each other with that run's key IDs |
| `Admissions.ValidateGatewayPeer` | internal/cli/ssh_gateway.go:354-374 | the scan admits exactly the first entry with the id when it is enabled both ways, persistent, ready and has the key |
| `Admissions.SSHSyncPeers` | internal/daemon/ssh_session.go:95-125 | the session list is the eligible peers in order, cut at the session limit |
| `AuthorizedKeyLines.PrintedLineParses` | internal/sshprovision/authorized_keys.go:76-83 | printing any valid entry and parsing it gives its peer and key id |
| `AuthorizedKeyLines.QuotedRoundTrip` | internal/sshprovision/authorized_keys.go:340-380 | reading an escaped quoted option gives any value back |
| `AuthorizedKeysFiles.ScanField` | internal/sshprovision/authorized_keys.go:165-188 | the scan with quote and escape flags finds the end of the field |
| `AuthorizedKeysFiles.FieldEndIff` | internal/sshprovision/authorized_keys.go:165-188 | an end is found exactly where a complete field of bare characters and quoted parts ends, before a space or at the end of the line |
| `AuthorizedKeysFiles.UpsertManagedLine` | internal/sshprovision/authorized_keys.go:85-118 | the loop over the lines keeps, drops or refuses as specified |
| `AuthorizedKeysFiles.UpsertIsFixpoint` | internal/sshprovision/authorized_keys.go:85-118 | without marked comments a successful upsert leaves one line for the peer and no other line with its key, keeps the others in order, and upserting again gives the same bytes |
| `KnownHosts.GlobMatches` | internal/sshprovision/known_hosts.go:353-372 | the bottom-up table agrees with the declarative meaning of '*' and '?' for all globs and values |
| `KnownHosts.VerifyPinData` | internal/sshprovision/known_hosts.go:263-291 | the loop's verdict over all lines |
| `KnownHosts.AppendedLines` | internal/sshprovision/known_hosts.go:374-382 | the lines after appending are the earlier ones in order and then the new one |
| `KnownHosts.AppendedPinIsFound` | internal/sshprovision/known_hosts.go:85-108 | whenever a pin is not found, appending it makes it found, every earlier line stays, and a second upsert changes nothing |
| `SyncKeyResets.KeyDirectory.Stage` | internal/config/sync_key.go:256-301 | failing at any file operation restores the three key files, absences included, and leaves no scratch; a backup name that is taken is one more failure |
| `SyncKeyResets.KeyDirectory.Reset` | internal/config/sync_key.go:256-305 | after commit all three files are new and nothing else changed |
| `SyncKeyResets.KeyDirectory.StageThenRollback` | internal/config/sync_key.go:307-309 | a later rollback leaves the directory as it was swept |
| `SyncKeyResets.GeneratedIsScratch` | internal/config/sync_key.go:319-368 | the stale-scratch recogniser accepts every generated temporary and backup name |
| `SyncKeyResets.LiveIsNotScratch` | internal/config/sync_key.go:336-368 | the recogniser never accepts a live key file |
| `Rosters.DiscoverRoster` | internal/cli/mesh_heal_roster.go:43-92 | the walk ends, attempts each host at most once and never the local one, and its reports and failures are exactly the hosts reachable from the seed |

## Left out

- `Meshes.Converges`: assumes, as the design does, that local writes succeed, nothing is concealed or image-path text, clips fit the payload limit, and clips differ in contents and stamps; two equal stamps really break agreement (`ExchangeAgreesIffStampsDiffer`).
- `Sessions.MainLoopCoverage`: enqueueing and draining a queue are one step each; channel races inside them are not modelled.
- `Sessions.FramesAreNumbered`: sequence numbers are unbounded here; the wrap-around at 2^64 is not modelled.
- `Documents.ScopedReadsBack`: a mutation is a function of the typed configuration, in which a nil and an empty list are the same; the mutations that also edit the raw document are modelled on their own: the peer operations, the material update, the host removal, the listener repair and the fleet reset.
- `Settlings.Settles`: an image can be saved, as convergence assumes.
- `Streams.Base64RoundTrip`: characters are given by their places in the alphabet.
- `Reruns.RerunCompletes`: other writers do not interfere during the attempts and the rerun, and each host has revisions left below 2^64 for one run.
- `Runs.ApplyCompletes`: the mutation has one write for the host, as every pair plan has.
- `Barriers.ProvisioningAgrees`: the session list claim is for configurations without a session limit; with a limit the list is cut as `SSHSyncPeers` states.
- `Rosters.DiscoverRoster`: trusting and reading depend only on the host id and ids come from a finite set.
- `NonceCaches.AcceptedAtMostOnce`: receive times do not go backwards.
- `SyncKeyResets.KeyDirectory.Stage`: undo operations succeed, and no directory has the name of a temporary file; when the sweep of earlier scratch fails, what it did not remove stays.
- `PeerOps.ApplyDelete`: cleanup records carry source, peer, previous state, reason and log id; the copied locator, key and last-phase fields are not modelled.
- Go's case-insensitive matching of JSON field names, JSON text syntax and encoding details.
- The table of known secret field names as text beyond the patterns and names the code lists.
- Cryptography (signatures, key derivation, sealing), host-key scanning and public-key blobs.
- File permissions, symbolic-link and inode checks, locks, fsync: a locked read-modify-write is one step.
- `config.Save`, `setMaxHistory` and the pre-v2 hostname write: unlocked whole-file writes that do not advance the revision.
- The detached publish goroutine and overlapping bodies of `onReceive`: each handler is one step.
- The gateway's numbering after a failed write, which skips a number: the sequence result is for the daemon's sender.
- History trimming, image garbage collection, listener planning, startup and recovery planning, release flags, HTTP routing, process launching, clipboard backends, the Swift app.
