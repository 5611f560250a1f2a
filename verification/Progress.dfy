/** What each write of a pair's mutation achieves on one host's document, and
    from which documents it succeeds (internal/sshprovision/config_applicator.go,
    internal/config/ssh_peer_config.go). */
module Progress {
  import opened Wrappers
  import opened Jsons
  import opened Configs
  import opened Documents
  import opened PeerOps
  import opened PeerLists
  import opened PeerEffects
  import opened PeerTypedViews
  import opened Stores
  import opened Applicators
  import Provenance

  // ---- the mutations that pair plans make ----

  predicate Verifier(t: Txt) {
    t.Empty? || t.LocalFile? || t.RegularSSH? || t.TailscaleSSH?
  }

  /** A write as a pair plan builds it from normalised hosts. */
  predicate PlanWrite(env: Env, w: Write) {
    && env.hostIDOk(w.peer) && w.enabled && w.accept && w.connect && w.persistent && !w.onDemand
    && env.canonicalHost(w.sshHost).Some? && env.userOk(w.sshUser) && 1 <= w.sshPort <= 65535
    && env.pathOk(w.installPath) && env.pathOk(w.gatewayPath) && env.pathOk(w.targetGatewayPath)
    && w.state == Loopback && Verifier(w.acceptVerifiedBy) && Verifier(w.connectVerifiedBy)
  }

  /** Validated key material and paths for the host and its peer. */
  predicate PlanJob(env: Env, job: Job, w: Write) {
    && PlanWrite(env, w) && w.target == job.host && MutationOk(env, job.m, job.host)
    && SyncKeyFor(job.m, w.peer).Some? && SyncKeyFor(job.m, w.target).Some?
    && env.pathOk(OwnKey(job, w).privateKeyPath) && env.keyIDOk(OwnKey(job, w).keyID) && env.keyIDOk(PeerKey(job, w).keyID)
    && env.pathOk(KnownHostsFor(job.m, job.host).value)
    && !job.m.sharedKey.Empty? && env.timeOk(job.at) && !env.blank(job.logID)
  }

  function OwnKey(job: Job, w: Write): KeyMaterial
    requires SyncKeyFor(job.m, w.target).Some?
  {
    SyncKeyFor(job.m, w.target).value
  }

  function PeerKey(job: Job, w: Write): KeyMaterial
    requires SyncKeyFor(job.m, w.peer).Some?
  {
    SyncKeyFor(job.m, w.peer).value
  }

  /** The proofs that the mutation asks for: the peer's key accepted, our own
      key for connecting. */
  function GoalProof(job: Job, w: Write): SSHProof
    requires w.accept && w.connect && SyncKeyFor(job.m, w.peer).Some? && SyncKeyFor(job.m, w.target).Some?
  {
    Proved(AcceptPatch(w, PeerKey(job, w), job.at).value, ConnectPatch(w, OwnKey(job, w), job.at).value)
  }

  function GoalPeer(env: Env, w: Write, state: Txt, proof: SSHProof): SSHPeer
    requires PlanWrite(env, w) && env.WellFormed()
  {
    Located(env, w.peer, FieldsFor(w, true), state, proof)
  }

  // ---- progress ----

  function ConfigOf(env: Env, raw: Fields): Config
    requires Parse(env, raw).Ok?
  {
    Parse(env, raw).value.config
  }

  ghost predicate HasRevision(env: Env, raw: Fields, rev: nat) {
    Parse(env, raw).Ok? && Parse(env, raw).value.revision == Some(rev)
  }

  ghost predicate MaterialDone(env: Env, job: Job, raw: Fields)
    requires Parse(env, raw).Ok? && SyncKeyFor(job.m, job.host).Some? && KnownHostsFor(job.m, job.host).Some?
  {
    var cfg := ConfigOf(env, raw);
    && cfg.transport.TransportSSH? && cfg.ssh.Some?
    && cfg.ssh.value.syncKey == SyncKeyFor(job.m, job.host).value.privateKeyPath
    && cfg.ssh.value.knownHosts == KnownHostsFor(job.m, job.host).value
  }

  /** The peer is there, with the mutation's locator and flags. */
  ghost predicate PeerDone(env: Env, w: Write, raw: Fields)
    requires env.WellFormed() && PlanWrite(env, w)
  {
    && PeerAt(raw, w.peer).Some? && PeerTyped(PeerAt(raw, w.peer).value)
    && var view := PeerView(PeerAt(raw, w.peer).value);
       view == GoalPeer(env, w, view.migrationState, view.proof)
  }

  /** How far the document has come: 1 material, 2 peer, 3 proofs, 4 staged, 5 ready. */
  ghost predicate Reached(env: Env, job: Job, w: Write, raw: Fields, level: nat)
    requires env.WellFormed() && PlanJob(env, job, w)
  {
    && Parse(env, raw).Ok? && Parse(env, raw).value.revision.Some?
    && (level >= 1 ==> MaterialDone(env, job, raw))
    && (level >= 2 ==> PeerDone(env, w, raw))
    && (level >= 3 ==> PeerView(PeerAt(raw, w.peer).value).proof == GoalProof(job, w))
    && (level >= 4 ==> var s := PeerView(PeerAt(raw, w.peer).value).migrationState; s.Staged? || s.Ready?)
    && (level >= 5 ==> PeerView(PeerAt(raw, w.peer).value).migrationState.Ready?)
  }

  lemma FieldsComplete(env: Env, w: Write, known: bool)
    requires env.WellFormed() && PlanWrite(env, w)
    ensures Complete(FieldsFor(w, known))
    ensures FieldsFor(w, known).sshHost == Some(w.sshHost)
  {
  }

  // ---- what a successful write achieves ----

  lemma MaterialAchieves(env: Env, job: Job, w: Write, raw: Fields, rev: nat)
    requires env.WellFormed() && PlanJob(env, job, w)
    requires RunMaterial(env, raw, rev, JobMaterial(job)).Ok?
    ensures Reached(env, job, w, RunMaterial(env, raw, rev, JobMaterial(job)).value, 1)
  {
    MaterialReadsBack(env, raw, rev, JobMaterial(job));
  }

  /** The host's material survives every operation on a peer. */
  lemma PeerOpKeepsMaterial(env: Env, job: Job, raw: Fields, id: Txt, rev: nat, op: PeerOp)
    requires env.WellFormed() && SyncKeyFor(job.m, job.host).Some? && KnownHostsFor(job.m, job.host).Some?
    requires Parse(env, raw).Ok? && MaterialDone(env, job, raw)
    requires RunPeerOp(env, raw, id, rev, op).Ok?
    ensures HasRevision(env, RunPeerOp(env, raw, id, rev, op).value, rev + 1)
    ensures MaterialDone(env, job, RunPeerOp(env, raw, id, rev, op).value)
  {
    PeerOpReadsBack(env, raw, id, rev, op);
  }

  /** The raw peer before an operation was well typed, if it was there. */
  lemma PeerAtTyped(env: Env, raw: Fields, id: Txt)
    requires Parse(env, raw).Ok? && Parse(env, raw).value.revision.Some?
    ensures PeerAt(raw, id).Some? ==> PeerTyped(PeerAt(raw, id).value) && StrAt(PeerAt(raw, id).value, Id) == id
  {
    VersionedHasRevision(env, raw);
    ParsedPeers(env, raw);
    PeerInTyped(PeersOf(raw), id);
  }

  lemma {:induction false} PeerInTyped(peers: seq<Fields>, id: Txt)
    requires PeersTyped(peers)
    ensures PeerIn(peers, id).Some? ==> PeerTyped(PeerIn(peers, id).value) && StrAt(PeerIn(peers, id).value, Id) == id
  {
    if peers != [] && StrAt(peers[0], Id) != id {
      PeerInTyped(peers[1..], id);
    }
  }

  /** The level that a document's peer stands for. */
  lemma PeerReaches(env: Env, job: Job, w: Write, out: Fields, peer: Fields, level: nat)
    requires env.WellFormed() && PlanJob(env, job, w)
    requires Parse(env, out).Ok? && Parse(env, out).value.revision.Some? && MaterialDone(env, job, out)
    requires PeerAt(out, w.peer) == Some(peer) && PeerTyped(peer)
    requires PeerView(peer) == GoalPeer(env, w, PeerView(peer).migrationState, PeerView(peer).proof)
    requires level >= 3 ==> PeerView(peer).proof == GoalProof(job, w)
    requires level >= 4 ==> PeerView(peer).migrationState.Staged? || PeerView(peer).migrationState.Ready?
    requires level >= 5 ==> PeerView(peer).migrationState.Ready?
    ensures Reached(env, job, w, out, level)
  {
  }

  lemma UpsertAchieves(env: Env, job: Job, w: Write, raw: Fields, rev: nat, known: bool)
    requires env.WellFormed() && PlanJob(env, job, w) && Reached(env, job, w, raw, 1)
    requires RunPeerOp(env, raw, w.peer, rev, Upsert(FieldsFor(w, known))).Ok?
    ensures Reached(env, job, w, RunPeerOp(env, raw, w.peer, rev, Upsert(FieldsFor(w, known))).value, 2)
  {
    var f := FieldsFor(w, known);
    var before := PeerAt(raw, w.peer);
    PeerOpKeepsMaterial(env, job, raw, w.peer, rev, Upsert(f));
    PeerOpFrame(env, raw, w.peer, rev, Upsert(f));
    PeerAtTyped(env, raw, w.peer);
    FieldsComplete(env, w, known);
    FieldsComplete(env, w, true);
    var base := if before.Some? then before.value else map[Id := Str(w.peer)];
    UpsertedView(env, base, f);
    PeerReaches(env, job, w, RunPeerOp(env, raw, w.peer, rev, Upsert(f)).value, Upserted(env, base, f), 2);
  }

  lemma ProofsAchieve(env: Env, job: Job, w: Write, raw: Fields, rev: nat, op: PeerOp)
    requires env.WellFormed() && PlanJob(env, job, w) && Reached(env, job, w, raw, 2)
    requires op == PatchProof(AcceptPatch(w, PeerKey(job, w), job.at), ConnectPatch(w, OwnKey(job, w), job.at))
    requires RunPeerOp(env, raw, w.peer, rev, op).Ok?
    ensures Reached(env, job, w, RunPeerOp(env, raw, w.peer, rev, op).value, 3)
  {
    var out := RunPeerOp(env, raw, w.peer, rev, op).value;
    var peer := PeerAt(raw, w.peer).value;
    PeerOpKeepsMaterial(env, job, raw, w.peer, rev, op);
    PatchedPeer(env, raw, w.peer, rev, op, out);
    PatchedView(peer, op.accept.value, op.connect.value);
    PeerReaches(env, job, w, out, peer[Proof := Obj(PatchedProof(ObjAt(peer, Proof), op.accept, op.connect))], 3);
  }

  lemma PatchedPeer(env: Env, raw: Fields, id: Txt, rev: nat, op: PeerOp, out: Fields)
    requires env.WellFormed() && RunPeerOp(env, raw, id, rev, op) == Ok(out) && op.PatchProof? && PeerAt(raw, id).Some?
    ensures var peer := PeerAt(raw, id).value;
      PeerAt(out, id) == Some(peer[Proof := Obj(PatchedProof(ObjAt(peer, Proof), op.accept, op.connect))])
  {
    PeerOpFrame(env, raw, id, rev, op);
  }

  lemma MoveAchieves(env: Env, job: Job, w: Write, raw: Fields, rev: nat, m: Move, level: nat)
    requires env.WellFormed() && PlanJob(env, job, w) && Reached(env, job, w, raw, 3)
    requires (level == 4 && m.next.Staged?) || (level == 5 && m.next.Ready?)
    requires RunPeerOp(env, raw, w.peer, rev, Transition(m)).Ok?
    ensures Reached(env, job, w, RunPeerOp(env, raw, w.peer, rev, Transition(m)).value, level)
  {
    var out := RunPeerOp(env, raw, w.peer, rev, Transition(m)).value;
    var peer := PeerAt(raw, w.peer).value;
    PeerOpKeepsMaterial(env, job, raw, w.peer, rev, Transition(m));
    MovedPeer(env, raw, w.peer, rev, m, out);
    MovedView(peer, m);
    PeerReaches(env, job, w, out, Moved(peer, m).value, level);
  }

  lemma MovedPeer(env: Env, raw: Fields, id: Txt, rev: nat, m: Move, out: Fields)
    requires env.WellFormed() && RunPeerOp(env, raw, id, rev, Transition(m)) == Ok(out) && PeerAt(raw, id).Some?
    ensures Moved(PeerAt(raw, id).value, m).Ok?
    ensures PeerAt(out, id) == Some(Moved(PeerAt(raw, id).value, m).value)
  {
    Provenance.PeerOpAdmitted(env, raw, id, rev, Transition(m));
    PeerOpFrame(env, raw, id, rev, Transition(m));
  }
}
