/** Where a peer's secrets have been: what the migration log proves about every
    run of the peer operations (internal/config/ssh_peer_config.go). */
module Provenance {
  import opened Wrappers
  import opened Jsons
  import opened Scrubs
  import opened Configs
  import opened Documents
  import opened PeerOps
  import opened PeerLists
  import opened PeerEffects
  import opened HostRemovals
  import opened Maintenance
  import opened Rewrites
  import opened Stores

  // ---- the log as a chain ----

  function From(e: Json): Txt { if e.Obj? then StrAt(e.fields, FromState) else Empty }
  function Next(e: Json): Txt { if e.Obj? then StrAt(e.fields, ToState) else Empty }
  function Why(e: Json): Txt { if e.Obj? then StrAt(e.fields, Reason) else Empty }

  /** A failure entry carries a proof with the spawned flag; no other entry has one. */
  predicate FailureRecorded(e: Json, spawned: bool) {
    && e.Obj? && AbsenceProof in e.fields && e.fields[AbsenceProof].Obj?
    && FailedPhase in e.fields[AbsenceProof].fields
    && SecretWriteCommandSpawned in e.fields[AbsenceProof].fields
    && e.fields[AbsenceProof].fields[SecretWriteCommandSpawned] == Bool(spawned)
  }

  predicate EntryOk(e: Json) {
    && e.Obj? && Edge(From(e), Next(e), Why(e))
    && (Next(e).Failed? <==> AbsenceProof in e.fields)
    && (Next(e).Failed? ==> FailureRecorded(e, true) || FailureRecorded(e, false))
  }

  /** A chain of allowed transitions from the unprovisioned state to the given one. */
  predicate Chain(log: seq<Json>, state: Txt) {
    && (forall i :: 0 <= i < |log| ==> EntryOk(log[i]))
    && (log == [] ==> state.Loopback?)
    && (log != [] ==> From(log[0]).Loopback? && Next(log[|log| - 1]) == state)
    && (forall i :: 0 < i < |log| ==> From(log[i]) == Next(log[i - 1]))
  }

  predicate HistoryOk(peer: Fields) {
    ListOk(peer, MigrationLog) && Chain(ItemsAt(peer, MigrationLog), StrAt(peer, MigrationState))
  }

  lemma ChainGrows(log: seq<Json>, state: Txt, e: Json)
    requires Chain(log, state) && EntryOk(e) && From(e) == state
    ensures Chain(log + [e], Next(e))
  {
    var all := log + [e];
    forall i | 0 <= i < |all|
      ensures EntryOk(all[i]) && (0 < i ==> From(all[i]) == Next(all[i - 1]))
    {
    }
  }

  // ---- every operation keeps the chain ----

  lemma LogEntryOk(env: Env, peer: SSHPeer, m: Move)
    requires MoveOk(env, peer, m)
    ensures EntryOk(LogEntry(m)) && From(LogEntry(m)) == m.from && Next(LogEntry(m)) == m.next && Why(LogEntry(m)) == m.reason
  {
    var e := LogEntry(m);
    if m.absence.Some? {
      var a := m.absence.value;
      assert e.fields[AbsenceProof] == AbsenceJson(a);
      assert AbsenceJson(a).fields[SecretWriteCommandSpawned] == Bool(a.spawned);
      assert FailureRecorded(e, a.spawned);
    }
  }

  lemma ResetKeepsLog(peer: Fields, next: Txt)
    ensures ListOk(ResetFields(peer, next), MigrationLog) == ListOk(peer, MigrationLog)
    ensures ItemsAt(ResetFields(peer, next), MigrationLog) == ItemsAt(peer, MigrationLog)
  {
  }

  lemma MovedKeepsHistory(env: Env, peer: Fields, m: Move)
    requires HistoryOk(peer) && StrAt(peer, MigrationState) == m.from
    requires MoveOk(env, PeerView(peer), m) && Moved(peer, m).Ok?
    ensures HistoryOk(Moved(peer, m).value)
    ensures ItemsAt(Moved(peer, m).value, MigrationLog) == ItemsAt(peer, MigrationLog) + [LogEntry(m)]
  {
    ResetKeepsLog(peer, m.next);
    LogEntryOk(env, PeerView(peer), m);
    ChainGrows(ItemsAt(peer, MigrationLog), m.from, LogEntry(m));
    var moved := Moved(peer, m).value;
    assert ItemsAt(moved, MigrationLog) == ItemsAt(peer, MigrationLog) + [LogEntry(m)];
    assert StrAt(moved, MigrationState) == m.next;
  }

  lemma UpsertedHistory(env: Env, peer: Fields, f: UpsertFields)
    ensures var o := Upserted(env, peer, f);
      && StrAt(o, MigrationState) == (if f.state.Some? then f.state.value else StrAt(peer, MigrationState))
      && ListOk(o, MigrationLog) == ListOk(peer, MigrationLog)
      && ItemsAt(o, MigrationLog) == ItemsAt(peer, MigrationLog)
  {
    var staged := SetStr(peer, MigrationState, f.state);
    FlagsKeep(staged, f, MigrationState);
    FlagsKeep(staged, f, MigrationLog);
    LocatorKeeps(env, WithFlags(staged, f), f, MigrationState);
    LocatorKeeps(env, WithFlags(staged, f), f, MigrationLog);
  }

  /** What the checks of a successful operation say about the peer before it. */
  ghost predicate Admitted(env: Env, before: Option<Fields>, op: PeerOp) {
    match op
    case Upsert(f) =>
      if before.None? then f.state == Some(Loopback) else f.state.None? || f.state.value == StrAt(before.value, MigrationState)
    case Transition(m) =>
      before.Some? && StrAt(before.value, MigrationState) == m.from && MoveOk(env, PeerView(before.value), m) && Moved(before.value, m).Ok?
    case _ => before.Some?
  }

  lemma FoundPeer(env: Env, peers: seq<Fields>, id: Txt)
    requires Find(env, peers, id).Ok?
    ensures PeerIn(peers, id) == if Find(env, peers, id).value.Some? then Some(peers[Find(env, peers, id).value.value]) else None
  {
    assert peers[0..] == peers;
    FindIsPeerIn(env, peers, id, 0);
  }

  lemma UpsertAdmitted(env: Env, cfg: Config, ssh: Fields, peers: seq<Fields>, id: Txt, f: UpsertFields)
    requires ApplyUpsert(env, cfg, ssh, peers, id, f).Ok?
    ensures Admitted(env, PeerIn(peers, id), Upsert(f))
  {
    FoundPeer(env, peers, id);
  }

  lemma TransitionAdmitted(env: Env, ssh: Fields, peers: seq<Fields>, id: Txt, m: Move)
    requires ApplyTransition(env, ssh, peers, id, m).Ok?
    ensures Admitted(env, PeerIn(peers, id), Transition(m))
  {
    FoundPeer(env, peers, id);
  }

  lemma ApplyOpAdmitted(env: Env, cfg: Config, ssh: Fields, peers: seq<Fields>, id: Txt, op: PeerOp)
    requires ApplyOp(env, cfg, ssh, peers, id, op).Ok?
    ensures Admitted(env, PeerIn(peers, id), op)
  {
    match op
    case Upsert(f) => UpsertAdmitted(env, cfg, ssh, peers, id, f);
    case Transition(m) => TransitionAdmitted(env, ssh, peers, id, m);
    case PatchProof(accept, connect) => FoundPeer(env, peers, id);
    case Disable(why, at) => FoundPeer(env, peers, id);
    case Delete(reason, logID, at) => FoundPeer(env, peers, id);
  }

  lemma PeerOpAdmitted(env: Env, raw: Fields, id: Txt, expected: nat, op: PeerOp)
    requires env.WellFormed() && RunPeerOp(env, raw, id, expected, op).Ok?
    ensures Admitted(env, PeerAt(raw, id), op)
  {
    PeerOpReadsBack(env, raw, id, expected, op);
    VersionedHasRevision(env, raw);
    var doc := Parse(env, raw).value;
    ApplyOpAdmitted(env, doc.config, ObjAt(raw, Ssh), PeersOf(raw), id, op);
  }

  /** A peer's history stays a chain under every operation that succeeds on it. */
  lemma PeerAfterKeepsHistory(env: Env, before: Option<Fields>, id: Txt, op: PeerOp)
    requires Admitted(env, before, op) && (before.Some? ==> HistoryOk(before.value))
    ensures PeerAfter(env, before, id, op).Some? ==> HistoryOk(PeerAfter(env, before, id, op).value)
  {
    match op
    case Upsert(f) => UpsertedHistory(env, if before.Some? then before.value else map[Id := Str(id)], f);
    case Transition(m) => MovedKeepsHistory(env, before.value, m);
    case _ =>
  }

  // ---- whole runs ----

  /** Requests of the interface: the peer operations, the material update, the
      removal of a host, the listener repair, the fleet reset, and the typed updates
      that leave the ssh section alone, as the first revision and the listener
      migration do. */
  ghost predicate ApiRequest(r: Request) {
    r.Scoped? ==> forall cfg :: r.mutate(cfg).Ok? ==> r.mutate(cfg).value.ssh == cfg.ssh
  }

  ghost predicate PeerHistoryOk(raw: Fields, p: Txt) {
    PeerAt(raw, p).Some? ==> HistoryOk(PeerAt(raw, p).value)
  }

  /** The peer's history, and the fact that a peer is only created in a document
      that has a revision. */
  ghost predicate DrivenOk(env: Env, raw: Fields, p: Txt) {
    PeerHistoryOk(raw, p) && (PeerAt(raw, p).Some? ==> RevisionOf(env, raw).Some?)
  }

  lemma {:induction false} NotNamingIn(env: Env, peers: seq<Fields>, host: Txt, p: Txt)
    ensures PeerIn(NotNaming(env, peers, host), p) == if env.removalMatches(p, host) then None else PeerIn(peers, p)
  {
    if peers != [] {
      NotNamingIn(env, peers[1..], host, p);
      var rest := NotNaming(env, peers[1..], host);
      assert ([peers[0]] + rest)[1..] == rest;
      assert [] + rest == rest;
    }
  }

  lemma RemovalKeepsHistory(env: Env, raw: Fields, expectation: Expectation, removal: Removal, p: Txt)
    requires env.WellFormed() && RunRemoval(env, raw, expectation, removal).Ok? && PeerHistoryOk(raw, p)
    ensures PeerHistoryOk(RunRemoval(env, raw, expectation, removal).value, p)
  {
    RemovalFrame(env, raw, expectation, removal, RunRemoval(env, raw, expectation, removal).value);
    NotNamingIn(env, PeersOf(raw), removal.host, p);
  }

  lemma {:induction false} AbsentView(peers: seq<Fields>, p: Txt)
    ensures PeerIn(peers, p).None? <==> forall i :: 0 <= i < |PeerViews(peers)| ==> PeerViews(peers)[i].id != p
  {
    if peers != [] {
      AbsentView(peers[1..], p);
      assert forall i :: 0 < i < |peers| ==> PeerViews(peers)[i] == PeerViews(peers[1..])[i - 1];
      assert PeerViews(peers)[0].id == StrAt(peers[0], Id);
      if PeerIn(peers[1..], p).Some? {
        var i :| 0 <= i < |PeerViews(peers[1..])| && PeerViews(peers[1..])[i].id == p;
        assert PeerViews(peers)[i + 1].id == p;
      }
    }
  }

  /** A typed update that leaves the ssh section alone reads back with the same peers. */
  lemma ScopedKeepsAbsence(env: Env, raw: Fields, expectation: Expectation, mutate: Config -> Result<Config>, p: Txt)
    requires env.WellFormed() && UpdateScoped(env, raw, expectation, mutate).Ok? && PeerAt(raw, p).None?
    requires mutate(Parse(env, raw).value.config).value.ssh == Parse(env, raw).value.config.ssh
    ensures PeerAt(UpdateScoped(env, raw, expectation, mutate).value, p).None?
  {
    var out := UpdateScoped(env, raw, expectation, mutate).value;
    ScopedReadsBack(env, raw, expectation, mutate);
    DecodedPeers(env, raw);
    DecodedPeers(env, out);
    AbsentView(PeersOf(raw), p);
    AbsentView(PeersOf(out), p);
  }

  lemma DecodedPeers(env: Env, raw: Fields)
    requires Parse(env, raw).Ok?
    ensures var ssh := Parse(env, raw).value.config.ssh;
      PeerViews(PeersOf(raw)) == if ssh.Some? then ssh.value.peers else []
  {
    SectionDecodes(env, raw);
    assert PeerViews([]) == [];
  }

  /** It only rewrites the section of a versioned document when no peer is there. */
  lemma ScopedKeepsPeer(env: Env, raw: Fields, expectation: Expectation, mutate: Config -> Result<Config>, p: Txt)
    requires env.WellFormed() && UpdateScoped(env, raw, expectation, mutate).Ok? && DrivenOk(env, raw, p) && PeerAt(raw, p).Some?
    requires mutate(Parse(env, raw).value.config).Ok?
    requires mutate(Parse(env, raw).value.config).value.ssh == Parse(env, raw).value.config.ssh
    ensures PeerAt(UpdateScoped(env, raw, expectation, mutate).value, p) == PeerAt(raw, p)
  {
    VersionedHasRevision(env, raw);
    UntouchedKeepsExtrasIff(env, raw, expectation, mutate);
    assert !EmptyPeerList(raw) by {
      assert PeersOf(raw) != [];
    }
  }

  lemma ScopedKeepsHistory(env: Env, raw: Fields, expectation: Expectation, mutate: Config -> Result<Config>, p: Txt)
    requires env.WellFormed() && UpdateScoped(env, raw, expectation, mutate).Ok? && DrivenOk(env, raw, p)
    requires mutate(Parse(env, raw).value.config).Ok?
    requires mutate(Parse(env, raw).value.config).value.ssh == Parse(env, raw).value.config.ssh
    ensures PeerHistoryOk(UpdateScoped(env, raw, expectation, mutate).value, p)
  {
    if PeerAt(raw, p).None? {
      ScopedKeepsAbsence(env, raw, expectation, mutate, p);
    } else {
      ScopedKeepsPeer(env, raw, expectation, mutate, p);
    }
  }

  lemma PeerOpKeepsHistory(env: Env, raw: Fields, id: Txt, expected: nat, op: PeerOp, p: Txt)
    requires env.WellFormed() && RunPeerOp(env, raw, id, expected, op).Ok? && PeerHistoryOk(raw, p)
    ensures PeerHistoryOk(RunPeerOp(env, raw, id, expected, op).value, p)
  {
    var out := RunPeerOp(env, raw, id, expected, op).value;
    PeerOpFrame(env, raw, id, expected, op);
    if id == p {
      PeerOpAdmitted(env, raw, id, expected, op);
      PeerAfterKeepsHistory(env, PeerAt(raw, p), p, op);
    } else {
      OthersAreKept(raw, out, id, p);
    }
  }

  lemma OthersAreKept(raw: Fields, out: Fields, id: Txt, p: Txt)
    requires Framed(raw, out, id) && id != p
    ensures PeerAt(out, p) == PeerAt(raw, p)
  {
    OthersKeepRest(PeersOf(raw), id, p);
    OthersKeepRest(PeersOf(out), id, p);
  }

  /** A repair leaves a driven peer alone. */
  lemma RepairKeepsPeer(env: Env, raw: Fields, expectation: Expectation, planner: Planner, repair: Repair, out: Fields, p: Txt)
    requires env.WellFormed() && RunRepair(env, raw, expectation, planner, repair) == Ok(out) && DrivenOk(env, raw, p)
    ensures PeerAt(out, p) == PeerAt(raw, p) || PeerAt(out, p).None?
    ensures PeerAt(raw, p).Some? ==> PeerAt(out, p) == PeerAt(raw, p)
  {
    var doc, edited, cfg, next := RawSteps(env, raw, expectation, Repairer(planner, repair), out);
    VersionedHasRevision(env, raw);
    if expectation.state.Versioned? {
      RepairKeepsSection(env, raw, expectation, planner, repair, out);
      if EmptyPeerList(raw) {
        assert PeersOf(raw) == [];
      }
    } else {
      PromotionDropsSection(env, raw, expectation, planner, repair, out);
    }
  }

  lemma AttemptKeepsHistory(env: Env, raw: Fields, r: Request, p: Txt)
    requires env.WellFormed() && ApiRequest(r) && Attempt(env, raw, r).Ok? && DrivenOk(env, raw, p)
    ensures DrivenOk(env, Attempt(env, raw, r).value, p)
  {
    AttemptAdvances(env, raw, r);
    match r
    case ForMaterial(expected, m) =>
      assert Attempt(env, raw, r) == RunMaterial(env, raw, expected, m);
      MaterialReadsBack(env, raw, expected, m);
    case ForRemoval(expectation, removal) =>
      assert Attempt(env, raw, r) == RunRemoval(env, raw, expectation, removal);
      RemovalKeepsHistory(env, raw, expectation, removal, p);
    case ForPeer(id, expected, op) =>
      assert Attempt(env, raw, r) == RunPeerOp(env, raw, id, expected, op);
      PeerOpKeepsHistory(env, raw, id, expected, op, p);
    case ForRepair(expectation, planner, repair) =>
      assert Attempt(env, raw, r) == RunRepair(env, raw, expectation, planner, repair);
      RepairKeepsPeer(env, raw, expectation, planner, repair, Attempt(env, raw, r).value, p);
    case ForReset(expectation, planner, reset) =>
      assert Attempt(env, raw, r) == RunReset(env, raw, expectation, planner, reset);
      ResetOnlyWithoutPeers(env, raw, expectation, planner, reset, Attempt(env, raw, r).value);
    case Scoped(expectation, mutate) =>
      assert Attempt(env, raw, r) == UpdateScoped(env, raw, expectation, mutate);
      ScopedReadsBack(env, raw, expectation, mutate);
      ScopedKeepsHistory(env, raw, expectation, mutate, p);
  }

  lemma StepKeepsHistory(env: Env, raw: Fields, r: Request, p: Txt)
    requires env.WellFormed() && ApiRequest(r) && DrivenOk(env, raw, p)
    ensures DrivenOk(env, Step(env, raw, r), p)
  {
    if Attempt(env, raw, r).Ok? {
      AttemptKeepsHistory(env, raw, r, p);
    }
  }

  /** For a peer created and driven through the interface, the migration log is
      always a chain of allowed transitions from the start to its state. */
  lemma LogIsChain(env: Env, raw: Fields, rs: seq<Request>, i: nat, p: Txt)
    requires env.WellFormed() && PeerAt(raw, p).None? && i <= |rs|
    requires forall k :: 0 <= k < |rs| ==> ApiRequest(rs[k])
    ensures DrivenOk(env, DocumentAfter(env, raw, rs, i), p)
  {
    var inv := (d: Fields) => DrivenOk(env, d, p);
    forall d: Fields, k: nat | k < |rs| && inv(d)
      ensures inv(Stepper(env)(d, rs[k]))
    {
      StepKeepsHistory(env, d, rs[k], p);
    }
    RunKeeps(Stepper(env), inv, raw, rs, 0, i);
  }

  // ---- what the log proves about secrets ----

  predicate Secret(state: Txt) {
    state.Written? || state.Ready?
  }

  predicate Cleanup(reason: Txt) {
    reason.SharedKeyCleanupVerified? || reason.IdentityResetPrepared? || reason.IdentityRemovalPrepared?
  }

  /** A secret state is left only through a verified cleanup or an identity reset. */
  lemma {:induction false} SecretLeavesByCleanup(log: seq<Json>, state: Txt, k: nat)
    requires Chain(log, state) && k < |log| && Secret(Next(log[k])) && !Secret(state)
    ensures exists j :: k < j < |log| && Cleanup(Why(log[j]))
    decreases |log| - k
  {
    assert k + 1 < |log|;
    assert EntryOk(log[k + 1]) && From(log[k + 1]) == Next(log[k]);
    if Secret(Next(log[k + 1])) {
      SecretLeavesByCleanup(log, state, k + 1);
    } else {
      assert Cleanup(Why(log[k + 1]));
    }
  }

  /** In the failed state the backward scan reads the latest failure: it proves
      absence exactly when that failure's command was not spawned. */
  lemma ScanReadsLatestFailure(peer: Fields)
    requires HistoryOk(peer) && StrAt(peer, MigrationState).Failed?
    ensures var log := ItemsAt(peer, MigrationLog);
      log != [] && (AbsenceProven(peer) <==> FailureRecorded(log[|log| - 1], false))
      && (!AbsenceProven(peer) <==> FailureRecorded(log[|log| - 1], true))
  {
    var log := ItemsAt(peer, MigrationLog);
    var last := |log| - 1;
    assert EntryOk(log[last]);
    assert HoldsProof(log, last);
    assert forall i :: 0 <= i < |log| ==> EntryOk(log[i]);
    if FailureRecorded(log[last], false) {
      assert NotSpawned(log[last].fields[AbsenceProof].fields);
    }
  }

  /** Exactly when a deletion leaves a tombstone. */
  lemma TombstoneIff(peer: Fields)
    requires HistoryOk(peer)
    ensures var log, state := ItemsAt(peer, MigrationLog), StrAt(peer, MigrationState);
      CleanupSource(peer) == Some(TombstoneSource) <==>
        Secret(state) || (state.Failed? && log != [] && FailureRecorded(log[|log| - 1], true))
  {
    var log, state := ItemsAt(peer, MigrationLog), StrAt(peer, MigrationState);
    if log != [] {
      assert EntryOk(log[|log| - 1]);
    }
    if state.Failed? {
      ScanReadsLatestFailure(peer);
    }
  }

  /** A remediation entry that keeps the peer's secret on record. */
  predicate TombstoneFor(e: Json, p: Txt) {
    e.Obj? && StrAt(e.fields, Source).TombstoneSource? && StrAt(e.fields, PeerID) == p
  }

  /** The section after a deletion with a tombstone. */
  ghost predicate TombstoneAdded(before: Fields, after: Fields, p: Txt) {
    var items, olds := ItemsAt(after, Remediation), ItemsAt(before, Remediation);
    olds <= items && exists i :: |olds| <= i < |items| && TombstoneFor(items[i], p)
  }

  /** Later records leave a tombstone where it is, earlier ones do too. */
  lemma TombstoneKept(before: Fields, mid: Fields, after: Fields, p: Txt)
    requires (TombstoneAdded(before, mid, p) && LogsGrow(mid, after)) || (LogsGrow(before, mid) && TombstoneAdded(mid, after, p))
    ensures TombstoneAdded(before, after, p)
  {
    var olds, mids, items := ItemsAt(before, Remediation), ItemsAt(mid, Remediation), ItemsAt(after, Remediation);
    if TombstoneAdded(before, mid, p) && LogsGrow(mid, after) {
      var i :| |olds| <= i < |mids| && TombstoneFor(mids[i], p);
      assert items[i] == mids[i];
    }
  }

  lemma RemediationAdded(ssh: Fields, audited: Fields, entry: Json, id: Txt)
    requires ItemsAt(audited, Remediation) == ItemsAt(ssh, Remediation)
    requires TombstoneFor(entry, id) && Appended(audited, Remediation, entry).Ok?
    ensures TombstoneAdded(ssh, Appended(audited, Remediation, entry).value, id)
  {
    var olds := ItemsAt(ssh, Remediation);
    assert ItemsAt(Appended(audited, Remediation, entry).value, Remediation)[|olds|] == entry;
  }

  lemma DeleteSectionRecords(ssh: Fields, peer: Fields, id: Txt, reason: Txt, more: Fields)
    requires DeleteSection(ssh, peer, id, reason, more).Ok? && CleanupSource(peer) == Some(TombstoneSource)
    requires Source !in more && PeerID !in more
    ensures TombstoneAdded(ssh, DeleteSection(ssh, peer, id, reason, more).value, id)
  {
    var state := StrAt(peer, MigrationState);
    var audited := Appended(ssh, AuditLog, AuditEntry(DeleteSource, id, state, reason, more)).value;
    RemediationAdded(ssh, audited, AuditEntry(TombstoneSource, id, state, reason, more), id);
  }

  lemma DeleteRecords(env: Env, ssh: Fields, peers: seq<Fields>, id: Txt, reason: Txt, logID: Txt, at: Txt)
    requires ApplyDelete(env, ssh, peers, id, reason, logID, at).Ok?
    ensures PeerIn(peers, id).Some?
    ensures CleanupSource(PeerIn(peers, id).value) == Some(TombstoneSource) ==>
        TombstoneAdded(ssh, ApplyDelete(env, ssh, peers, id, reason, logID, at).value.ssh, id)
  {
    FoundPeer(env, peers, id);
    var peer := PeerIn(peers, id).value;
    if CleanupSource(peer) == Some(TombstoneSource) {
      DeleteSectionRecords(ssh, peer, id, reason, map[LogID := Str(logID), Other("removed_at") := Str(at)]);
    }
  }

  lemma TombstoneStays(before: Fields, after: Fields, peers: Json, id: Txt)
    requires TombstoneAdded(before, after, id)
    ensures TombstoneAdded(before, after[Peers := peers], id)
  {
    assert ItemsAt(after[Peers := peers], Remediation) == ItemsAt(after, Remediation);
  }

  lemma UpdateRecords(env: Env, raw: Fields, expected: nat, apply: Document -> Result<Edit>, id: Txt)
    requires Update(env, raw, expected, apply).Ok?
    requires Parse(env, raw).Ok? && apply(Parse(env, raw).value).Ok?
    requires TombstoneAdded(ObjAt(raw, Ssh), apply(Parse(env, raw).value).value.ssh, id)
    ensures TombstoneAdded(ObjAt(raw, Ssh), ObjAt(Update(env, raw, expected, apply).value, Ssh), id)
  {
    UpdateCommits(env, raw, expected, apply, Update(env, raw, expected, apply).value);
    var doc := Parse(env, raw).value;
    var edit := apply(doc).value;
    CommitSection(env, doc, edit, Update(env, raw, expected, apply).value);
    TombstoneStays(ObjAt(raw, Ssh), edit.ssh, PeersJson(edit.peers), id);
  }

  lemma DeletedRecords(env: Env, raw: Fields, id: Txt, expected: nat, op: PeerOp)
    requires env.WellFormed() && op.Delete? && RunPeerOp(env, raw, id, expected, op).Ok?
    ensures PeerAt(raw, id).Some?
    ensures CleanupSource(PeerAt(raw, id).value) == Some(TombstoneSource) ==>
        TombstoneAdded(ObjAt(raw, Ssh), ObjAt(RunPeerOp(env, raw, id, expected, op).value, Ssh), id)
  {
    PeerOpReadsBack(env, raw, id, expected, op);
    assert Parse(env, raw).value.raw == raw by { VersionedHasRevision(env, raw); }
    DeleteRecords(env, ObjAt(raw, Ssh), PeersOf(raw), id, op.reason, op.logID, op.removedAt);
    if CleanupSource(PeerAt(raw, id).value) == Some(TombstoneSource) {
      UpdateRecords(env, raw, expected, Editor(env, id, op), id);
    }
  }

  /** A deleted peer that held a secret at entry k leaves a tombstone or was cleaned up. */
  ghost predicate AccountedFor(before: Fields, after: Fields, p: Txt, k: nat) {
    PeerAt(before, p).Some? &&
    var log := ItemsAt(PeerAt(before, p).value, MigrationLog);
    k < |log| && Secret(Next(log[k])) ==>
      || TombstoneAdded(ObjAt(before, Ssh), ObjAt(after, Ssh), p)
      || exists j :: k < j < |log| && Cleanup(Why(log[j]))
  }

  // ---- removals delete several peers ----

  lemma {:induction false} RemovedKeepsRest(peers: seq<Fields>, i: nat, p: Txt)
    requires i < |peers| && StrAt(peers[i], Id) != p
    ensures PeerIn(peers[..i] + peers[i + 1..], p) == PeerIn(peers, p)
  {
    var left := peers[..i] + peers[i + 1..];
    if i == 0 {
      assert left == peers[1..];
    } else {
      RemovedKeepsRest(peers[1..], i - 1, p);
      assert left[1..] == peers[1..][..i - 1] + peers[1..][i..];
    }
  }

  lemma {:induction false} DeleteAllRecords(env: Env, ssh: Fields, peers: seq<Fields>, ids: seq<Txt>, r: Removal, p: Txt)
    requires DeleteAll(env, ssh, peers, ids, r).Ok? && p in ids
    ensures PeerIn(peers, p).Some?
    ensures CleanupSource(PeerIn(peers, p).value) == Some(TombstoneSource) ==>
      TombstoneAdded(ssh, DeleteAll(env, ssh, peers, ids, r).value.ssh, p)
    decreases |ids|
  {
    var edit, i := OneDeletion(env, ssh, peers, ids[0], r);
    var last := DeleteAll(env, ssh, peers, ids, r).value.ssh;
    assert DeleteAll(env, ssh, peers, ids, r) == DeleteAll(env, edit.ssh, edit.peers, ids[1..], r);
    DeleteAllGrows(env, edit.ssh, edit.peers, ids[1..], r);
    if ids[0] == p {
      DeleteRecords(env, ssh, peers, p, r.reason, r.logID, r.at);
    } else {
      RemovedKeepsRest(peers, i, p);
      DeleteAllRecords(env, edit.ssh, edit.peers, ids[1..], r, p);
    }
    if CleanupSource(PeerIn(peers, p).value) == Some(TombstoneSource) {
      TombstoneKept(ssh, edit.ssh, last, p);
    }
  }

  lemma RemovedRecords(env: Env, raw: Fields, expectation: Expectation, r: Removal, p: Txt, out: Fields)
    requires env.WellFormed() && RunRemoval(env, raw, expectation, r) == Ok(out)
    requires MatchingIDs(env, PeersOf(raw), r.host).Ok? && p in MatchingIDs(env, PeersOf(raw), r.host).value
    ensures PeerAt(raw, p).Some?
    ensures CleanupSource(PeerAt(raw, p).value) == Some(TombstoneSource) ==> TombstoneAdded(ObjAt(raw, Ssh), ObjAt(out, Ssh), p)
  {
    var doc, ids := Parse(env, raw).value, MatchingIDs(env, PeersOf(raw), r.host).value;
    assert doc.raw == raw by { VersionedHasRevision(env, raw); }
    DeleteAllRecords(env, ObjAt(raw, Ssh), PeersOf(raw), ids, r, p);
    if CleanupSource(PeerAt(raw, p).value) == Some(TombstoneSource) {
      var edit := DeleteAll(env, ObjAt(raw, Ssh), PeersOf(raw), ids, r).value;
      CommittedTombstone(env, doc, r.host, edit, out, p);
    }
  }

  lemma CommittedTombstone(env: Env, doc: Document, host: Txt, edit: Edit, out: Fields, p: Txt)
    requires PeersOf(doc.raw) != [] && Parse(env, doc.raw) == Ok(doc) && CommitRemoval(env, doc, host, true, edit) == Ok(out)
    requires TombstoneAdded(ObjAt(doc.raw, Ssh), edit.ssh, p)
    ensures TombstoneAdded(ObjAt(doc.raw, Ssh), ObjAt(out, Ssh), p)
  {
    SectionOfPeers(env, doc);
    CommitRemovalWrites(env, doc, host, true, edit, out);
    var cfg := RemovedConfig(env, Normalize(env, doc.config).value, host, true, edit.peers);
    MarshalKeeps(env, doc.raw, edit, cfg, NextRevision(doc).value);
    TombstoneStays(ObjAt(doc.raw, Ssh), edit.ssh, PeersJson(edit.peers), p);
  }

  /** What a deletion record and the chain together account for. */
  lemma HistoryAccounts(before: Fields, after: Fields, p: Txt, k: nat)
    requires PeerAt(before, p).Some? && PeerHistoryOk(before, p)
    requires CleanupSource(PeerAt(before, p).value) == Some(TombstoneSource) ==> TombstoneAdded(ObjAt(before, Ssh), ObjAt(after, Ssh), p)
    ensures AccountedFor(before, after, p, k)
  {
    var peer := PeerAt(before, p).value;
    var log, state := ItemsAt(peer, MigrationLog), StrAt(peer, MigrationState);
    TombstoneIff(peer);
    if k < |log| && Secret(Next(log[k])) && !Secret(state) {
      SecretLeavesByCleanup(log, state, k);
    }
  }

  /** Requests that delete a peer: a deletion, or a removal that names it. */
  predicate Deletes(env: Env, raw: Fields, r: Request, p: Txt) {
    || (r.ForPeer? && r.op.Delete? && r.id == p)
    || (r.ForRemoval? && MatchingIDs(env, PeersOf(raw), r.removal.host).Ok? && p in MatchingIDs(env, PeersOf(raw), r.removal.host).value)
  }

  lemma DeleteStepAccounts(env: Env, raw: Fields, r: Request, p: Txt, k: nat)
    requires env.WellFormed() && ApiRequest(r) && Deletes(env, raw, r, p) && Attempt(env, raw, r).Ok? && PeerHistoryOk(raw, p)
    ensures AccountedFor(raw, Step(env, raw, r), p, k)
  {
    if r.ForPeer? {
      DeletedRecords(env, raw, p, r.expected, r.op);
    } else {
      RemovedRecords(env, raw, r.expectation, r.removal, p, Attempt(env, raw, r).value);
    }
    HistoryAccounts(raw, Step(env, raw, r), p, k);
  }

  /** Secret provenance: in any run of the interface, when a peer that was ever
      in a secret state is deleted, alone or with its host, either a tombstone
      for it is appended to the remediation list, or its log holds a later cleanup
      or identity reset. */
  lemma DeletionAccountsForSecrets(env: Env, raw: Fields, rs: seq<Request>, i: nat, p: Txt, k: nat)
    requires env.WellFormed() && PeerAt(raw, p).None?
    requires forall j :: 0 <= j < |rs| ==> ApiRequest(rs[j])
    requires Succeeds(env, raw, rs, i) && Deletes(env, DocumentAfter(env, raw, rs, i), rs[i], p)
    ensures AccountedFor(DocumentAfter(env, raw, rs, i), DocumentAfter(env, raw, rs, i + 1), p, k)
  {
    LogIsChain(env, raw, rs, i, p);
    DeleteStepAccounts(env, DocumentAfter(env, raw, rs, i), rs[i], p, k);
  }

  // ---- every peer that is gone was deleted ----

  lemma RemovalOnlyOfNamed(env: Env, raw: Fields, expectation: Expectation, removal: Removal, out: Fields, p: Txt)
    requires env.WellFormed() && RunRemoval(env, raw, expectation, removal) == Ok(out)
    requires PeerAt(raw, p).Some? && PeerAt(out, p).None?
    ensures MatchingIDs(env, PeersOf(raw), removal.host).Ok? && p in MatchingIDs(env, PeersOf(raw), removal.host).value
  {
    var ids, edit := RemovalSteps(env, raw, expectation, removal, out);
    RemovalFrame(env, raw, expectation, removal, out);
    NotNamingIn(env, PeersOf(raw), removal.host, p);
    PeerInNone(PeersOf(raw), p);
    MatchingAre(env, PeersOf(raw), removal.host, p);
  }

  lemma PeerOpOnlyDeletes(env: Env, raw: Fields, id: Txt, expected: nat, op: PeerOp, out: Fields, p: Txt)
    requires env.WellFormed() && RunPeerOp(env, raw, id, expected, op) == Ok(out)
    requires PeerAt(raw, p).Some? && PeerAt(out, p).None?
    ensures op.Delete? && id == p
  {
    PeerOpFrame(env, raw, id, expected, op);
    if id != p {
      OthersAreKept(raw, out, id, p);
    } else if !op.Delete? {
      PeerOpAdmitted(env, raw, id, expected, op);
      OnlyDeletionRemoves(env, PeerAt(raw, p), id, op);
    }
  }

  lemma OnlyDeletionRemoves(env: Env, before: Option<Fields>, id: Txt, op: PeerOp)
    requires before.Some? && Admitted(env, before, op) && !op.Delete?
    ensures PeerAfter(env, before, id, op).Some?
  {
  }

  /** A driven peer is gone after a request only if the request deletes it. */
  lemma GoneIsDeleted(env: Env, raw: Fields, r: Request, p: Txt)
    requires env.WellFormed() && ApiRequest(r) && DrivenOk(env, raw, p)
    requires PeerAt(raw, p).Some? && PeerAt(Step(env, raw, r), p).None?
    ensures Attempt(env, raw, r).Ok? && Deletes(env, raw, r, p)
  {
    var out := Step(env, raw, r);
    assert Attempt(env, raw, r) == Ok(out);
    match r
    case ForMaterial(expected, m) =>
      assert RunMaterial(env, raw, expected, m) == Ok(out);
      MaterialReadsBack(env, raw, expected, m);
    case ForRemoval(expectation, removal) =>
      assert RunRemoval(env, raw, expectation, removal) == Ok(out);
      RemovalOnlyOfNamed(env, raw, expectation, removal, out, p);
    case ForPeer(id, expected, op) =>
      assert RunPeerOp(env, raw, id, expected, op) == Ok(out);
      PeerOpOnlyDeletes(env, raw, id, expected, op, out, p);
    case ForRepair(expectation, planner, repair) =>
      assert RunRepair(env, raw, expectation, planner, repair) == Ok(out);
      RepairKeepsPeer(env, raw, expectation, planner, repair, out, p);
    case ForReset(expectation, planner, reset) =>
      assert RunReset(env, raw, expectation, planner, reset) == Ok(out);
      ResetOnlyWithoutPeers(env, raw, expectation, planner, reset, out);
    case Scoped(expectation, mutate) =>
      assert UpdateScoped(env, raw, expectation, mutate) == Ok(out);
      ScopedReadsBack(env, raw, expectation, mutate);
      ScopedKeepsPeer(env, raw, expectation, mutate, p);
  }

  /** No peer is lost without account: in any run of the interface, whatever request
      it is that makes a peer which ever held a secret go away, a tombstone for it is
      appended, or its log holds a later cleanup or identity reset. */
  lemma GoneIsAccountedFor(env: Env, raw: Fields, rs: seq<Request>, i: nat, p: Txt, k: nat)
    requires env.WellFormed() && PeerAt(raw, p).None? && i < |rs|
    requires forall j :: 0 <= j < |rs| ==> ApiRequest(rs[j])
    requires PeerAt(DocumentAfter(env, raw, rs, i), p).Some? && PeerAt(DocumentAfter(env, raw, rs, i + 1), p).None?
    ensures AccountedFor(DocumentAfter(env, raw, rs, i), DocumentAfter(env, raw, rs, i + 1), p, k)
  {
    LogIsChain(env, raw, rs, i, p);
    var before := DocumentAfter(env, raw, rs, i);
    assert DocumentAfter(env, raw, rs, i + 1) == Step(env, before, rs[i]);
    GoneStepAccounts(env, before, rs[i], p, k);
  }

  lemma GoneStepAccounts(env: Env, raw: Fields, r: Request, p: Txt, k: nat)
    requires env.WellFormed() && ApiRequest(r) && DrivenOk(env, raw, p)
    requires PeerAt(raw, p).Some? && PeerAt(Step(env, raw, r), p).None?
    ensures AccountedFor(raw, Step(env, raw, r), p, k)
  {
    GoneIsDeleted(env, raw, r, p);
    DeleteStepAccounts(env, raw, r, p, k);
  }

  // ---- what a later typed update does to a tombstone ----

  /** A peer operation that leaves no peer writes an empty peer list. */
  lemma NoPeersLeft(env: Env, raw: Fields, id: Txt, expected: nat, op: PeerOp)
    requires env.WellFormed() && RunPeerOp(env, raw, id, expected, op).Ok?
    requires PeersOf(RunPeerOp(env, raw, id, expected, op).value) == []
    ensures EmptyPeerList(RunPeerOp(env, raw, id, expected, op).value)
  {
    var out := RunPeerOp(env, raw, id, expected, op).value;
    var apply := Editor(env, id, op);
    PeerOpReadsBack(env, raw, id, expected, op);
    assert RunPeerOp(env, raw, id, expected, op) == Update(env, raw, expected, apply);
    UpdateCommits(env, raw, expected, apply, out);
    var doc := Parse(env, raw).value;
    var edit := apply(doc).value;
    CommitSection(env, doc, edit, out);
    PeersRoundTrip(edit.ssh, edit.peers);
    assert edit.peers == [];
  }

  /** Deleting the last peer leaves its tombstone only until the next typed update:
      one that does not touch the ssh section, such as a listener migration, forgets
      the tombstones and the audit log. */
  lemma LastDeletionIsForgotten(env: Env, raw: Fields, id: Txt, expected: nat, op: PeerOp, next: Expectation, mutate: Config -> Result<Config>)
    requires env.WellFormed() && op.Delete? && RunPeerOp(env, raw, id, expected, op).Ok?
    requires PeersOf(RunPeerOp(env, raw, id, expected, op).value) == []
    requires UpdateScoped(env, RunPeerOp(env, raw, id, expected, op).value, next, mutate).Ok?
    requires ApiRequest(Scoped(next, mutate))
    ensures var later := ObjAt(UpdateScoped(env, RunPeerOp(env, raw, id, expected, op).value, next, mutate).value, Ssh);
      Remediation !in later && AuditLog !in later
  {
    var out := RunPeerOp(env, raw, id, expected, op).value;
    NoPeersLeft(env, raw, id, expected, op);
    var doc, cfg, rev := ScopedSteps(env, out, next, mutate);
    assert RewritesSSH(doc, cfg) by {
      SectionDecodes(env, out);
    }
    SectionAfter(env, doc, cfg, rev);
    FreshPeers(cfg);
  }
}
