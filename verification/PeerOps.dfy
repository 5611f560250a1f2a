/** The operations on one ssh peer and on the host's own ssh material, as edits
    of the raw document (internal/config/ssh_peer_config.go,
    internal/config/ssh_local_material.go). */
module PeerOps {
  import opened Wrappers
  import opened Jsons
  import opened Scrubs
  import opened Configs
  import opened Documents

  // ---- requests ----

  datatype UpsertFields = UpsertFields(
    id: Option<Txt>, enabled: Option<bool>, accept: Option<bool>, connect: Option<bool>,
    persistent: Option<bool>, onDemand: Option<bool>,
    sshHost: Option<Txt>, sshUser: Option<Txt>, sshPort: Option<int>,
    installPath: Option<Txt>, gatewayPath: Option<Txt>,
    state: Option<Txt>, sharedKey: Option<Txt>)

  datatype ProofPatch = ProofPatch(keyID: Txt, gatewayPath: Txt, verifiedAt: Txt, verifiedBy: Txt)

  datatype Absence = Absence(
    failedPhase: Txt, spawned: bool, verifiedBy: Txt, verifiedAt: Txt, remoteRevision: Option<nat>, logID: Txt)

  datatype Move = Move(
    from: Txt, next: Txt, reason: Txt, logID: Txt, failedPhase: Option<Txt>, absence: Option<Absence>)

  datatype PeerOp =
    | Upsert(fields: UpsertFields)
    | PatchProof(accept: Option<ProofPatch>, connect: Option<ProofPatch>)
    | Transition(move: Move)
    | Disable(why: Txt, disabledAt: Txt)
    | Delete(reason: Txt, logID: Txt, removedAt: Txt)

  /** What an operation leaves of the ssh section and of its peers. */
  datatype Edit = Edit(ssh: Fields, peers: seq<Fields>)

  // ---- finding a peer ----

  function FindFrom(env: Env, peers: seq<Fields>, id: Txt, i: nat): (r: Result<Option<nat>>)
    requires i <= |peers|
    ensures r.Ok? && r.value.Some? ==> i <= r.value.value < |peers| && StrAt(peers[r.value.value], Id) == id
    decreases |peers| - i
  {
    if i == |peers| then Ok(None)
    else if !env.hostIDOk(StrAt(peers[i], Id)) then Err("invalid_ssh_peer_id")
    else if StrAt(peers[i], Id) == id then Ok(Some(i))
    else FindFrom(env, peers, id, i + 1)
  }

  function Find(env: Env, peers: seq<Fields>, id: Txt): (r: Result<Option<nat>>)
    ensures r.Ok? && r.value.Some? ==> r.value.value < |peers| && StrAt(peers[r.value.value], Id) == id
  {
    FindFrom(env, peers, id, 0)
  }

  method FindRawPeer(env: Env, peers: seq<Fields>, id: Txt) returns (r: Result<Option<nat>>)
    ensures r == Find(env, peers, id)
  {
    for i := 0 to |peers|
      invariant FindFrom(env, peers, id, 0) == FindFrom(env, peers, id, i)
    {
      if !env.hostIDOk(StrAt(peers[i], Id)) {
        return Err("invalid_ssh_peer_id");
      }
      if StrAt(peers[i], Id) == id {
        return Ok(Some(i));
      }
    }
    return Ok(None);
  }

  /** With valid and distinct ids the search is exact. */
  lemma {:induction false} FindFromIsExact(env: Env, peers: seq<Fields>, id: Txt, i: nat)
    requires i <= |peers|
    requires forall j :: i <= j < |peers| ==> env.hostIDOk(StrAt(peers[j], Id))
    ensures FindFrom(env, peers, id, i).Ok?
    ensures FindFrom(env, peers, id, i).value.None? <==> forall j :: i <= j < |peers| ==> StrAt(peers[j], Id) != id
    decreases |peers| - i
  {
    if i < |peers| && StrAt(peers[i], Id) != id {
      FindFromIsExact(env, peers, id, i + 1);
    }
  }

  // ---- upsert ----

  function SetStr(o: Fields, k: Key, value: Option<Txt>): Fields {
    if value.Some? then o[k := Str(value.value)] else o
  }

  function SetBool(o: Fields, k: Key, value: Option<bool>): Fields {
    if value.Some? then o[k := Bool(value.value)] else o
  }

  function SetNum(o: Fields, k: Key, value: Option<int>): Fields {
    if value.Some? then o[k := Num(value.value)] else o
  }

  /** The raw peer with the requested fields set; unknown fields stay. */
  function Upserted(env: Env, peer: Fields, f: UpsertFields): Fields {
    WithLocator(env, WithFlags(SetStr(peer, MigrationState, f.state), f), f)
  }

  function WithFlags(peer: Fields, f: UpsertFields): Fields {
    SetBool(SetBool(SetBool(SetBool(SetBool(peer, Enabled, f.enabled), Accept, f.accept), Connect, f.connect),
                    Persistent, f.persistent), OnDemand, f.onDemand)
  }

  function WithLocator(env: Env, peer: Fields, f: UpsertFields): Fields {
    SetStr(SetStr(SetStr(SetNum(SetStr(peer, SshUser, f.sshUser), SshPort, f.sshPort), InstallPath, f.installPath),
                  GatewayPath, f.gatewayPath),
           SshHost, if f.sshHost.Some? then env.canonicalHost(f.sshHost.value) else None)
  }

  predicate CreateFieldsOk(f: UpsertFields) {
    && f.id.Some? && f.enabled.Some? && f.accept.Some? && f.connect.Some?
    && (f.accept.value || f.connect.value)
    && (f.connect.value ==>
          && f.persistent.Some? && f.onDemand.Some?
          && f.sshHost.Some? && f.sshUser.Some? && f.sshPort.Some?
          && f.installPath.Some? && f.gatewayPath.Some?)
  }

  function ApplyUpsert(env: Env, cfg: Config, ssh: Fields, peers: seq<Fields>, id: Txt, f: UpsertFields): Result<Edit> {
    var found :- Find(env, peers, id);
    var peer := if found.Some? then peers[found.value] else map[Id := Str(id)];
    if !StrOk(peer, MigrationState) then Err("invalid_migration_state")
    else if found.None? && f.state != Some(Loopback) then Err("ssh_peer_create_requires_loopback_unprovisioned")
    else if found.None? && !CreateFieldsOk(f) then Err("ssh_peer_create_requires_field")
    else if found.Some? && f.state.Some? && f.state.value != StrAt(peer, MigrationState) then Err("ssh_peer_migration_state_change_not_allowed")
    else if f.sshHost.Some? && env.canonicalHost(f.sshHost.value).None? then Err("invalid_ssh_host")
    else
      var updated := Upserted(env, peer, f);
      if !PeerTyped(updated) || !PeerOk(env, cfg.hostname, PeerView(updated), cfg.transport.TransportSSH?) then Err("invalid_ssh_peer")
      else Ok(Edit(PersistedPaths(env, ssh, cfg), if found.Some? then peers[found.value := updated] else peers + [updated]))
  }

  /** Upserts also write the expanded "~" paths back. */
  function PersistedPaths(env: Env, ssh: Fields, cfg: Config): Fields {
    if cfg.ssh.None? then ssh
    else
      ssh
      + (if env.needsHome(StrAt(ssh, SyncKey)) then map[SyncKey := Str(cfg.ssh.value.syncKey)] else map[])
      + (if env.needsHome(StrAt(ssh, KnownHosts)) then map[KnownHosts := Str(cfg.ssh.value.knownHosts)] else map[])
  }

  // ---- proofs ----

  function AcceptFields(p: ProofPatch): Fields {
    map[AcceptKeyID := Str(p.keyID), AcceptGatewayPath := Str(p.gatewayPath),
        AcceptVerifiedAt := Str(p.verifiedAt), AcceptVerifiedBy := Str(p.verifiedBy)]
  }

  function ConnectFields(p: ProofPatch): Fields {
    map[ConnectKeyID := Str(p.keyID), ConnectGatewayPath := Str(p.gatewayPath),
        ConnectVerifiedAt := Str(p.verifiedAt), ConnectVerifiedBy := Str(p.verifiedBy)]
  }

  function PatchedProof(proof: Fields, accept: Option<ProofPatch>, connect: Option<ProofPatch>): Fields {
    proof
    + (if accept.Some? then AcceptFields(accept.value) else map[])
    + (if connect.Some? then ConnectFields(connect.value) else map[])
  }

  function ApplyProofPatch(env: Env, ssh: Fields, peers: seq<Fields>, id: Txt, accept: Option<ProofPatch>, connect: Option<ProofPatch>): Result<Edit> {
    var found :- Find(env, peers, id);
    if found.None? then Err("ssh_peer_not_found") else
    var peer := peers[found.value];
    if !PeerTyped(peer) then Err("invalid_ssh_peer") else
    var typed := PeerView(peer);
    if accept.Some? && !(typed.enabled && typed.accept) then Err("proof_mismatch: accept")
    else if connect.Some? && !(typed.enabled && typed.connect) then Err("proof_mismatch: connect")
    else Ok(Edit(ssh, peers[found.value := peer[Proof := Obj(PatchedProof(ObjAt(peer, Proof), accept, connect))]]))
  }

  // ---- transitions ----

  predicate PreSecret(phase: Txt) {
    phase.PreSecretPhase?
  }

  /** The five-state machine: the edges and the reasons that open them. */
  predicate Edge(from: Txt, next: Txt, reason: Txt) {
    || (from.Loopback? && next.Staged?)
    || ((from.Loopback? || from.Staged?) && next.Failed?)
    || (from.Failed? && (next.Loopback? || next.Staged?) && reason.RetryProgress?)
    || (from.Staged? && next.Written? && (reason.RemoteSharedKeyWritten? || reason.SecretWriteOutcomeUnknown?))
    || (from.Written? && next.Ready? && reason.GatewayVersionVerified?)
    || (from.Staged? && next.Ready? && reason.SSHMaterialVerified?)
    || ((from.Written? || from.Ready?) && next.Staged? && reason.SharedKeyCleanupVerified?)
    || (from.Ready? && next.Loopback? && (reason.IdentityResetPrepared? || reason.IdentityRemovalPrepared?))
  }

  predicate StagedMaterialOk(env: Env, peer: SSHPeer) {
    peer.enabled ==>
      && (peer.accept ==> !peer.gatewayPath.Empty?)
      && (peer.connect ==> !peer.sshHost.Empty? && !peer.sshUser.Empty? && peer.sshPort != 0
                           && !peer.installPath.Empty? && !peer.gatewayPath.Empty?)
      && EnabledProofsOk(env, peer)
  }

  predicate FailureOk(env: Env, m: Move) {
    && m.failedPhase.Some? && !env.blank(m.failedPhase.value)
    && m.absence.Some? && m.absence.value.failedPhase == m.failedPhase.value
    && env.timeOk(m.absence.value.verifiedAt)
    && (!m.absence.value.spawned ==> PreSecret(m.absence.value.failedPhase))
  }

  predicate MoveOk(env: Env, peer: SSHPeer, m: Move) {
    && KnownState(m.from) && KnownState(m.next)
    && !env.blank(m.reason) && !env.blank(m.logID)
    && m.from != m.next
    && (!m.next.Failed? ==> m.failedPhase.None? && m.absence.None?)
    && Edge(m.from, m.next, m.reason)
    && (m.next.Staged? && (m.from.Loopback? || m.from.Failed?) ==> StagedMaterialOk(env, peer))
    && (m.next.Failed? ==> FailureOk(env, m))
    && (m.next.Ready? ==> EnabledProofsOk(env, peer))
  }

  function AbsenceJson(a: Absence): Json {
    Obj(map[FailedPhase := Str(a.failedPhase), SecretWriteCommandSpawned := Bool(a.spawned),
            AbsenceVerifiedBy := Str(a.verifiedBy), VerifiedAt := Str(a.verifiedAt), LogID := Str(a.logID)]
        + (if a.remoteRevision.Some? then map[RemoteConfigRevision := Num(a.remoteRevision.value)] else map[]))
  }

  function LogEntry(m: Move): Json {
    Obj(map[FromState := Str(m.from), ToState := Str(m.next), Reason := Str(m.reason), LogID := Str(m.logID)]
        + (if m.failedPhase.Some? then map[FailedPhase := Str(m.failedPhase.value)] else map[])
        + (if m.absence.Some? then map[AbsenceProof := AbsenceJson(m.absence.value)] else map[]))
  }

  /** The items of a list field; absent and null are empty. */
  function ItemsAt(o: Fields, k: Key): seq<Json> {
    if k in o && o[k].Arr? then o[k].items else []
  }

  predicate ListOk(o: Fields, k: Key) {
    Absent(o, k) || o[k].Arr?
  }

  function Appended(o: Fields, k: Key, entry: Json): Result<Fields> {
    if !ListOk(o, k) then Err("invalid_list") else Ok(o[k := Arr(ItemsAt(o, k) + [entry])])
  }

  /** Going back to the start drops proofs and everything that looks secret,
      except what the migration log records. */
  function ResetFields(peer: Fields, next: Txt): Fields {
    if next.Loopback? then ScrubbedFields(peer - {Proof}, {MigrationLog}) else peer
  }

  function Moved(peer: Fields, m: Move): Result<Fields> {
    Appended(ResetFields(peer, m.next)[MigrationState := Str(m.next)], MigrationLog, LogEntry(m))
  }

  function ApplyTransition(env: Env, ssh: Fields, peers: seq<Fields>, id: Txt, m: Move): Result<Edit> {
    var found :- Find(env, peers, id);
    if found.None? then Err("ssh_peer_not_found") else
    var peer := peers[found.value];
    if !StrOk(peer, MigrationState) then Err("invalid_migration_state")
    else if StrAt(peer, MigrationState) != m.from then Err("ssh_peer_transition_state_mismatch")
    else if !PeerTyped(peer) || !MoveOk(env, PeerView(peer), m) then Err("ssh_peer_transition_not_allowed")
    else
      var moved :- Moved(peer, m);
      Ok(Edit(ssh, peers[found.value := moved]))
  }

  // ---- disable and delete ----

  function AuditEntry(source: Txt, id: Txt, state: Txt, reason: Txt, more: Fields): Json {
    Obj(map[Source := Str(source), PeerID := Str(id), PreviousState := Str(state), Reason := Str(reason), Other("durable") := Bool(true)] + more)
  }

  function ApplyDisable(env: Env, ssh: Fields, peers: seq<Fields>, id: Txt, reason: Txt, disabledAt: Txt): Result<Edit> {
    var found :- Find(env, peers, id);
    if found.None? then Err("ssh_peer_not_found") else
    var peer := peers[found.value];
    if !StrOk(peer, MigrationState) || !KnownState(StrAt(peer, MigrationState)) then Err("invalid_ssh_peer_disable_state") else
    var audited :- Appended(ssh, AuditLog, AuditEntry(DisableSource, id, StrAt(peer, MigrationState), reason, map[Other("disabled_at") := Str(disabledAt)]));
    Ok(Edit(audited, peers[found.value := peer[Enabled := Bool(false)]]))
  }

  /** Entry i of a log holds an absence proof that decodes. */
  predicate HoldsProof(log: seq<Json>, i: nat) {
    i < |log| && log[i].Obj? && AbsenceProof in log[i].fields && log[i].fields[AbsenceProof].Obj?
  }

  /** No secret write command was spawned, as that proof has it. */
  predicate NotSpawned(proof: Fields) {
    FailedPhase in proof && SecretWriteCommandSpawned in proof && proof[SecretWriteCommandSpawned] == Bool(false)
  }

  predicate LogDecodes(log: seq<Json>) {
    forall i :: 0 <= i < |log| ==> log[i].Obj? || log[i].Null?
  }

  /** The latest proof in the log says that nothing was spawned. */
  predicate AbsenceProven(peer: Fields) {
    var log := ItemsAt(peer, MigrationLog);
    LogDecodes(log) &&
    exists i | 0 <= i < |log| :: HoldsProof(log, i) && NotSpawned(log[i].fields[AbsenceProof].fields)
                                 && forall j :: i < j < |log| ==> !HoldsProof(log, j)
  }

  /** The backward scan of the log. */
  method HasAbsenceProof(peer: Fields) returns (r: bool)
    ensures r <==> AbsenceProven(peer)
  {
    var log := ItemsAt(peer, MigrationLog);
    if !LogDecodes(log) {
      return false;
    }
    var i := |log|;
    while i > 0
      invariant 0 <= i <= |log|
      invariant forall j :: i <= j < |log| ==> !HoldsProof(log, j)
    {
      i := i - 1;
      if HoldsProof(log, i) {
        return NotSpawned(log[i].fields[AbsenceProof].fields);
      }
    }
    return false;
  }

  /** Which cleanup record a deletion leaves: none, material or tombstone. */
  function CleanupSource(peer: Fields): Option<Txt> {
    match StrAt(peer, MigrationState)
    case Loopback => None
    case Staged => Some(MaterialCleanupSource)
    case Failed => Some(if AbsenceProven(peer) then MaterialCleanupSource else TombstoneSource)
    case _ => Some(TombstoneSource)
  }

  /** The ssh section after a deletion: audited, and with the cleanup record. */
  function DeleteSection(ssh: Fields, peer: Fields, id: Txt, reason: Txt, more: Fields): Result<Fields> {
    var state := StrAt(peer, MigrationState);
    var audited :- Appended(ssh, AuditLog, AuditEntry(DeleteSource, id, state, reason, more));
    var cleanup := CleanupSource(peer);
    if cleanup.None? then Ok(audited) else Appended(audited, Remediation, AuditEntry(cleanup.value, id, state, reason, more))
  }

  function ApplyDelete(env: Env, ssh: Fields, peers: seq<Fields>, id: Txt, reason: Txt, logID: Txt, removedAt: Txt): Result<Edit> {
    var found :- Find(env, peers, id);
    if found.None? then Err("ssh_peer_not_found") else
    var peer := peers[found.value];
    if !StrOk(peer, MigrationState) || !KnownState(StrAt(peer, MigrationState)) then Err("invalid_ssh_peer_delete_state") else
    var section :- DeleteSection(ssh, peer, id, reason, map[LogID := Str(logID), Other("removed_at") := Str(removedAt)]);
    Ok(Edit(section, peers[..found.value] + peers[found.value + 1..]))
  }

  // ---- running an operation on the document ----

  predicate RequestOk(env: Env, id: Txt, op: PeerOp) {
    env.hostIDOk(id) &&
    match op
    case Upsert(f) => (f.id.Some? ==> f.id.value == id) && f.sharedKey.None?
    case PatchProof(accept, connect) => accept.Some? || connect.Some?
    case Transition(_) => true
    case Disable(why, _) => env.reasonOk(why)
    case Delete(reason, logID, _) => env.reasonOk(reason) && !env.blank(logID)
  }

  function ApplyOp(env: Env, cfg: Config, ssh: Fields, peers: seq<Fields>, id: Txt, op: PeerOp): Result<Edit> {
    match op
    case Upsert(f) => ApplyUpsert(env, cfg, ssh, peers, id, f)
    case PatchProof(accept, connect) => ApplyProofPatch(env, ssh, peers, id, accept, connect)
    case Transition(m) => ApplyTransition(env, ssh, peers, id, m)
    case Disable(why, at) => ApplyDisable(env, ssh, peers, id, why, at)
    case Delete(reason, logID, at) => ApplyDelete(env, ssh, peers, id, reason, logID, at)
  }

  function WithPeers(cfg: Config, peers: seq<Fields>): Config {
    cfg.(ssh := Some((if cfg.ssh.Some? then cfg.ssh.value else NO_SSH).(peers := PeerViews(peers))))
  }

  function WithEdit(raw: Fields, edit: Edit): Fields {
    raw[Ssh := Obj(edit.ssh[Peers := PeersJson(edit.peers)])]
  }

  /** Validate the edited configuration and write it at the next revision. */
  function Commit(env: Env, doc: Document, edit: Edit): Result<Fields> {
    if !PeersTyped(edit.peers) then Err("invalid_ssh_peer")
    else if !TransportOk(env, WithPeers(doc.config, edit.peers)) then Err("invalid_ssh_transport_config")
    else WriteNext(env, doc, edit, WithPeers(doc.config, edit.peers))
  }

  function WriteNext(env: Env, doc: Document, edit: Edit, cfg: Config): Result<Fields> {
    var next :- NextRevision(doc);
    Ok(MarshalPreserving(WithEdit(doc.raw, edit), cfg, next))
  }

  /** The locked update: parse, compare the revision, apply, commit. */
  function Update(env: Env, raw: Fields, expected: nat, apply: Document -> Result<Edit>): Result<Fields> {
    var doc :- Parse(env, raw);
    if !Meets(doc, Expectation(Versioned, Some(expected))) then Err("config_revision_conflict") else
    var edit :- apply(doc);
    Commit(env, doc, edit)
  }

  function Editor(env: Env, id: Txt, op: PeerOp): Document -> Result<Edit> {
    (doc: Document) => ApplyOp(env, doc.config, ObjAt(doc.raw, Ssh), PeersAt(ObjAt(doc.raw, Ssh)), id, op)
  }

  function RunPeerOp(env: Env, raw: Fields, id: Txt, expected: nat, op: PeerOp): Result<Fields> {
    if !RequestOk(env, id, op) then Err("invalid_ssh_peer_request")
    else Update(env, raw, expected, Editor(env, id, op))
  }
}
