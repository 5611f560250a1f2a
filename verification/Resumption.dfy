/** Every document that a partial run leaves can be resumed: which documents the
    applicator supports, and that its writes succeed on them and keep them so. */
module Resumption {
  import opened Wrappers
  import opened Jsons
  import opened Configs
  import opened Documents
  import opened PeerOps
  import opened PeerLists
  import opened PeerEffects
  import opened PeerTypedViews
  import opened Stores
  import opened Applicators
  import opened Progress
  import Provenance

  // ---- supported documents ----

  /** The peer may be missing, or be in a state that staging starts from; a ready
      peer holds valid proofs both ways. */
  ghost predicate SupportedPeer(env: Env, peer: Option<Fields>) {
    peer.Some? ==>
      var view := PeerView(peer.value);
      && ListOk(peer.value, MigrationLog)
      && SupportedState(view.migrationState)
      && (view.migrationState.Ready? ==> AcceptProofOk(env, view.proof) && ConnectProofOk(env, view.proof))
  }

  /** No other peer dials the target that the write gives this one. */
  ghost predicate TargetFree(env: Env, w: Write, others: seq<Fields>) {
    forall i :: 0 <= i < |others| ==> !(Dials(true, PeerView(others[i])) && TargetOf(env, PeerView(others[i])) == WrittenTarget(env, w))
  }

  function WrittenTarget(env: Env, w: Write): (Txt, Option<Txt>, int) {
    (w.sshUser, env.canonicalHost(w.sshHost), w.sshPort)
  }

  /** The configuration is valid with ssh as the transport, and the peer is not
      this host. */
  ghost predicate SupportedConfig(env: Env, w: Write, cfg: Config) {
    && (cfg.hostname.Empty? || cfg.hostname != w.peer)
    && (cfg.ssh.Some? ==> LimitsOk(env, cfg.ssh.value) && PeersOk(env, cfg.hostname, cfg.ssh.value.peers, true))
  }

  ghost predicate Supported(env: Env, w: Write, raw: Fields) {
    && Parse(env, raw).Ok? && Parse(env, raw).value.revision.Some?
    && SupportedConfig(env, w, ConfigOf(env, raw))
    && SupportedPeer(env, PeerAt(raw, w.peer))
    && TargetFree(env, w, Others(PeersOf(raw), w.peer))
  }

  // ---- placing a peer in a valid list ----

  function Placed(peers: seq<Fields>, found: Option<nat>, peer: Fields): seq<Fields>
    requires found.Some? ==> found.value < |peers|
  {
    if found.Some? then peers[found.value := peer] else peers + [peer]
  }

  lemma {:induction false} InOthers(peers: seq<Fields>, id: Txt, j: nat)
    requires j < |peers| && StrAt(peers[j], Id) != id
    ensures peers[j] in Others(peers, id)
  {
    if j > 0 {
      InOthers(peers[1..], id, j - 1);
    }
  }

  lemma ClearOfOther(env: Env, w: Write, peers: seq<Fields>, peer: SSHPeer, j: nat)
    requires j < |peers| && StrAt(peers[j], Id) != w.peer && peer.id == w.peer
    requires TargetFree(env, w, Others(peers, w.peer)) && TargetOf(env, peer) == WrittenTarget(env, w)
    ensures Compatible(env, true, PeerView(peers[j]), peer) && Compatible(env, true, peer, PeerView(peers[j]))
  {
    InOthers(peers, w.peer, j);
    var others := Others(peers, w.peer);
    var k :| 0 <= k < |others| && others[k] == peers[j];
    assert !(Dials(true, PeerView(others[k])) && TargetOf(env, PeerView(others[k])) == WrittenTarget(env, w));
  }

  lemma AddedOk(env: Env, hostname: Txt, w: Write, peers: seq<Fields>, peer: Fields)
    requires PeersOk(env, hostname, PeerViews(peers), true) && PeerOk(env, hostname, PeerView(peer), true)
    requires forall j :: 0 <= j < |peers| ==> Compatible(env, true, PeerView(peers[j]), PeerView(peer))
    ensures PeersOk(env, hostname, PeerViews(peers + [peer]), true)
  {
    assert PeerViews(peers + [peer]) == PeerViews(peers) + [PeerView(peer)];
    OneMorePeer(env, hostname, PeerViews(peers), true, PeerView(peer));
  }

  lemma ReplacedOk(env: Env, hostname: Txt, views: seq<SSHPeer>, i: nat, view: SSHPeer)
    requires i < |views| && PeersOk(env, hostname, views, true) && PeerOk(env, hostname, view, true)
    requires forall j :: 0 <= j < |views| && j != i ==> Compatible(env, true, views[j], view) && Compatible(env, true, view, views[j])
    ensures PeersOk(env, hostname, views[i := view], true)
  {
    var after := views[i := view];
    forall j, k | 0 <= j < k < |after|
      ensures Compatible(env, true, after[j], after[k])
    {
      if j != i && k != i {
        assert Compatible(env, true, views[j], views[k]);
      } else if j == i {
        assert Compatible(env, true, view, views[k]);
      } else {
        assert Compatible(env, true, views[j], view);
      }
    }
  }

  /** A peer with the written target can be placed in the list. */
  lemma PlacedOk(env: Env, hostname: Txt, w: Write, peers: seq<Fields>, found: Option<nat>, peer: Fields)
    requires PeersOk(env, hostname, PeerViews(peers), true) && UniqueIds(peers)
    requires Find(env, peers, w.peer) == Ok(found)
    requires PeerView(peer).id == w.peer && PeerOk(env, hostname, PeerView(peer), true)
    requires TargetFree(env, w, Others(peers, w.peer)) && TargetOf(env, PeerView(peer)) == WrittenTarget(env, w)
    ensures PeersOk(env, hostname, PeerViews(Placed(peers, found, peer)), true)
  {
    if found.Some? {
      var i := found.value;
      forall j | 0 <= j < |peers| && j != i
        ensures Compatible(env, true, PeerView(peers[j]), PeerView(peer)) && Compatible(env, true, PeerView(peer), PeerView(peers[j]))
      {
        ClearOfOther(env, w, peers, PeerView(peer), j);
      }
      assert PeerViews(peers[i := peer]) == PeerViews(peers)[i := PeerView(peer)];
      ReplacedOk(env, hostname, PeerViews(peers), i, PeerView(peer));
    } else {
      assert peers[0..] == peers;
      FindIsPeerIn(env, peers, w.peer, 0);
      PeerInNone(peers, w.peer);
      forall j | 0 <= j < |peers|
        ensures Compatible(env, true, PeerView(peers[j]), PeerView(peer))
      {
        ClearOfOther(env, w, peers, PeerView(peer), j);
      }
      AddedOk(env, hostname, w, peers, peer);
    }
  }

  // ---- the writes succeed ----

  /** An edit that places a valid peer with the written target is committed. */
  lemma PlacingCommits(env: Env, w: Write, doc: Document, rev: nat, ssh: Fields, found: Option<nat>, peer: Fields)
    requires Parse(env, doc.raw) == Ok(doc) && doc.revision == Some(rev) && rev < MAX_UINT64
    requires Supported(env, w, doc.raw) && doc.config.transport.TransportSSH? && env.WellFormed()
    requires Find(env, PeersOf(doc.raw), w.peer) == Ok(found)
    requires PeerTyped(peer) && PeerView(peer).id == w.peer && PeerOk(env, doc.config.hostname, PeerView(peer), true)
    requires TargetOf(env, PeerView(peer)) == WrittenTarget(env, w)
    ensures Commit(env, doc, Edit(ssh, Placed(PeersOf(doc.raw), found, peer))).Ok?
  {
    var peers := PeersOf(doc.raw);
    VersionedHasRevision(env, doc.raw);
    ParsedPeers(env, doc.raw);
    assert PeersOk(env, doc.config.hostname, PeerViews(peers), true);
    PlacedOk(env, doc.config.hostname, w, peers, found, peer);
    var edited := Placed(peers, found, peer);
    assert PeersTyped(edited);
    assert TransportOk(env, WithPeers(doc.config, edited));
    assert WriteNext(env, doc, Edit(ssh, edited), WithPeers(doc.config, edited)).Ok? by {
      assert NextRevision(doc) == Ok(rev + 1);
    }
  }

  lemma UpdateSucceeds(env: Env, raw: Fields, rev: nat, apply: Document -> Result<Edit>)
    requires HasRevision(env, raw, rev) && rev > 0
    requires apply(Parse(env, raw).value).Ok? && Commit(env, Parse(env, raw).value, apply(Parse(env, raw).value).value).Ok?
    ensures Update(env, raw, rev, apply).Ok?
  {
    VersionedHasRevision(env, raw);
  }

  /** An operation whose edit places such a peer succeeds. */
  lemma PlacingSucceeds(env: Env, w: Write, raw: Fields, rev: nat, apply: Document -> Result<Edit>, ssh: Fields, found: Option<nat>, peer: Fields)
    requires env.WellFormed() && Supported(env, w, raw) && ConfigOf(env, raw).transport.TransportSSH?
    requires HasRevision(env, raw, rev) && 0 < rev < MAX_UINT64
    requires Find(env, PeersOf(raw), w.peer) == Ok(found)
    requires PeerTyped(peer) && PeerView(peer).id == w.peer && PeerOk(env, ConfigOf(env, raw).hostname, PeerView(peer), true)
    requires TargetOf(env, PeerView(peer)) == WrittenTarget(env, w)
    requires apply(Parse(env, raw).value) == Ok(Edit(ssh, Placed(PeersOf(raw), found, peer)))
    ensures Update(env, raw, rev, apply).Ok?
  {
    VersionedHasRevision(env, raw);
    PlacingCommits(env, w, Parse(env, raw).value, rev, ssh, found, peer);
    UpdateSucceeds(env, raw, rev, apply);
  }

  /** The peer that an upsert starts from. */
  function BaseOf(peer: Option<Fields>, id: Txt): Fields {
    if peer.Some? then peer.value else map[Id := Str(id)]
  }

  predicate ProofsValid(env: Env, proof: SSHProof) {
    && (HasAcceptProof(proof) ==> AcceptProofOk(env, proof))
    && (HasConnectProof(proof) ==> ConnectProofOk(env, proof))
  }

  /** The peer as the mutation wants it is valid. */
  lemma GoalPeerOk(env: Env, hostname: Txt, w: Write, state: Txt, proof: SSHProof)
    requires env.WellFormed() && PlanWrite(env, w) && (hostname.Empty? || hostname != w.peer)
    requires KnownState(state) && ProofsValid(env, proof)
    requires state.Ready? ==> AcceptProofOk(env, proof) && ConnectProofOk(env, proof)
    ensures PeerOk(env, hostname, GoalPeer(env, w, state, proof), true)
    ensures TargetOf(env, GoalPeer(env, w, state, proof)) == WrittenTarget(env, w)
    ensures GoalPeer(env, w, state, proof).id == w.peer
  {
  }

  /** The existing peer of a supported document. */
  lemma ExistingPeer(env: Env, w: Write, raw: Fields)
    requires Supported(env, w, raw)
    ensures PeerAt(raw, w.peer).Some? ==>
      var peer := PeerAt(raw, w.peer).value;
      PeerTyped(peer) && StrAt(peer, Id) == w.peer && PeerOk(env, ConfigOf(env, raw).hostname, PeerView(peer), true)
  {
    PeerAtTyped(env, raw, w.peer);
    VersionedHasRevision(env, raw);
    ParsedPeers(env, raw);
    var peers := PeersOf(raw);
    if PeerAt(raw, w.peer).Some? {
      PeerInNone(peers, w.peer);
      FindFromIsExact(env, peers, w.peer, 0);
      Provenance.FoundPeer(env, peers, w.peer);
      var i := Find(env, peers, w.peer).value.value;
      assert PeerViews(peers)[i] == PeerView(peers[i]);
    }
  }

  /** The search on a supported document. */
  lemma FoundIn(env: Env, w: Write, raw: Fields)
    requires Supported(env, w, raw)
    ensures Find(env, PeersOf(raw), w.peer).Ok?
    ensures var found := Find(env, PeersOf(raw), w.peer).value;
      PeerAt(raw, w.peer) == if found.Some? then Some(PeersOf(raw)[found.value]) else None
  {
    VersionedHasRevision(env, raw);
    ParsedPeers(env, raw);
    FindFromIsExact(env, PeersOf(raw), w.peer, 0);
    Provenance.FoundPeer(env, PeersOf(raw), w.peer);
  }

  lemma UpsertEdit(env: Env, cfg: Config, ssh: Fields, peers: seq<Fields>, id: Txt, found: Option<nat>, peer: Fields, f: UpsertFields)
    requires cfg.transport.TransportSSH? && Find(env, peers, id) == Ok(found) && StrOk(peer, MigrationState)
    requires peer == if found.Some? then peers[found.value] else map[Id := Str(id)]
    requires if found.Some? then f.state.None? else f.state == Some(Loopback) && CreateFieldsOk(f)
    requires f.sshHost.Some? && env.canonicalHost(f.sshHost.value).Some?
    requires PeerTyped(Upserted(env, peer, f)) && PeerOk(env, cfg.hostname, PeerView(Upserted(env, peer, f)), true)
    ensures ApplyUpsert(env, cfg, ssh, peers, id, f) == Ok(Edit(PersistedPaths(env, ssh, cfg), Placed(peers, found, Upserted(env, peer, f))))
  {
  }

  lemma UpsertSucceeds(env: Env, job: Job, w: Write, raw: Fields, rev: nat)
    requires env.WellFormed() && PlanJob(env, job, w) && Supported(env, w, raw) && Reached(env, job, w, raw, 1)
    requires HasRevision(env, raw, rev) && 0 < rev < MAX_UINT64
    ensures RunPeerOp(env, raw, w.peer, rev, Upsert(FieldsFor(w, PeerAt(raw, w.peer).Some?))).Ok?
  {
    var doc, known := Parse(env, raw).value, PeerAt(raw, w.peer).Some?;
    VersionedHasRevision(env, raw);
    ExistingPeer(env, w, raw);
    FoundIn(env, w, raw);
    var found := Find(env, PeersOf(raw), w.peer).value;
    var base, f := BaseOf(PeerAt(raw, w.peer), w.peer), FieldsFor(w, known);
    FieldsComplete(env, w, known);
    UpsertedView(env, base, f);
    var state := if known then StrAt(base, MigrationState) else Loopback;
    GoalPeerOk(env, doc.config.hostname, w, state, ProofView(ObjAt(base, Proof)));
    UpsertEdit(env, doc.config, ObjAt(raw, Ssh), PeersOf(raw), w.peer, found, base, f);
    PlacingSucceeds(env, w, raw, rev, Editor(env, w.peer, Upsert(f)), PersistedPaths(env, ObjAt(raw, Ssh), doc.config), found, Upserted(env, base, f));
  }

  lemma ProofsSucceed(env: Env, job: Job, w: Write, raw: Fields, rev: nat, op: PeerOp)
    requires env.WellFormed() && PlanJob(env, job, w) && Supported(env, w, raw) && Reached(env, job, w, raw, 2)
    requires HasRevision(env, raw, rev) && 0 < rev < MAX_UINT64
    requires op == PatchProof(AcceptPatch(w, PeerKey(job, w), job.at), ConnectPatch(w, OwnKey(job, w), job.at))
    ensures RunPeerOp(env, raw, w.peer, rev, op).Ok?
  {
    var doc := Parse(env, raw).value;
    VersionedHasRevision(env, raw);
    FoundIn(env, w, raw);
    var found := Find(env, PeersOf(raw), w.peer).value;
    var peer := PeerAt(raw, w.peer).value;
    PatchedView(peer, op.accept.value, op.connect.value);
    var patched := peer[Proof := Obj(PatchedProof(ObjAt(peer, Proof), op.accept, op.connect))];
    GoalPeerOk(env, doc.config.hostname, w, PeerView(peer).migrationState, GoalProof(job, w));
    PatchEdit(env, ObjAt(raw, Ssh), PeersOf(raw), w.peer, found, op.accept, op.connect);
    PlacingSucceeds(env, w, raw, rev, Editor(env, w.peer, op), ObjAt(raw, Ssh), found, patched);
  }

  lemma PatchEdit(env: Env, ssh: Fields, peers: seq<Fields>, id: Txt, found: Option<nat>, accept: Option<ProofPatch>, connect: Option<ProofPatch>)
    requires Find(env, peers, id) == Ok(found) && found.Some? && PeerTyped(peers[found.value])
    requires var view := PeerView(peers[found.value]); view.enabled && view.accept && view.connect
    ensures var peer := peers[found.value];
      ApplyProofPatch(env, ssh, peers, id, accept, connect) ==
        Ok(Edit(ssh, Placed(peers, found, peer[Proof := Obj(PatchedProof(ObjAt(peer, Proof), accept, connect))])))
  {
  }

  /** The three transitions that the applicator asks for. */
  predicate PlanMove(job: Job, m: Move) {
    && m.logID == job.logID && m.failedPhase.None? && m.absence.None?
    && (|| (m.from.Loopback? && m.next.Staged? && m.reason.MaterialStaged?)
        || (m.from.Failed? && m.next.Staged? && m.reason.RetryProgress?)
        || (m.from.Staged? && m.next.Ready? && m.reason.SSHMaterialVerified?))
  }

  lemma PlanMoveOk(env: Env, job: Job, w: Write, m: Move)
    requires env.WellFormed() && PlanJob(env, job, w) && PlanMove(job, m)
    ensures MoveOk(env, GoalPeer(env, w, m.from, GoalProof(job, w)), m)
  {
    assert !w.installPath.Empty? && !w.gatewayPath.Empty? && !w.sshUser.Empty? && !w.sshHost.Empty?;
  }

  /** The moved peer is valid. */
  lemma MovedPeerOk(env: Env, job: Job, w: Write, hostname: Txt, peer: Fields, moved: Fields, m: Move)
    requires env.WellFormed() && PlanJob(env, job, w) && (hostname.Empty? || hostname != w.peer)
    requires PlanMove(job, m) && PeerView(peer) == GoalPeer(env, w, m.from, GoalProof(job, w))
    requires PeerView(moved) == PeerView(peer).(migrationState := m.next)
    ensures PeerView(moved).id == w.peer && PeerOk(env, hostname, PeerView(moved), true)
    ensures TargetOf(env, PeerView(moved)) == WrittenTarget(env, w)
  {
    GoalPeerOk(env, hostname, w, m.next, GoalProof(job, w));
    assert PeerView(moved) == GoalPeer(env, w, m.next, GoalProof(job, w));
  }

  lemma MoveSucceeds(env: Env, job: Job, w: Write, raw: Fields, rev: nat, m: Move)
    requires env.WellFormed() && PlanJob(env, job, w) && Supported(env, w, raw) && Reached(env, job, w, raw, 3)
    requires HasRevision(env, raw, rev) && 0 < rev < MAX_UINT64
    requires PlanMove(job, m) && PeerView(PeerAt(raw, w.peer).value).migrationState == m.from
    ensures RunPeerOp(env, raw, w.peer, rev, Transition(m)).Ok?
  {
    var peers := PeersOf(raw);
    FoundIn(env, w, raw);
    var found := Find(env, peers, w.peer).value;
    var peer := PeerAt(raw, w.peer).value;
    assert MoveOk(env, PeerView(peer), m) by { PlanMoveOk(env, job, w, m); }
    MoveEdit(env, ObjAt(raw, Ssh), peers, w.peer, found, m);
    var moved := Moved(peer, m).value;
    MovedView(peer, m);
    MovedPeerOk(env, job, w, ConfigOf(env, raw).hostname, peer, moved, m);
    MovePlaced(env, w, raw, rev, m, found, moved);
  }

  lemma MovePlaced(env: Env, w: Write, raw: Fields, rev: nat, m: Move, found: Option<nat>, moved: Fields)
    requires env.WellFormed() && Supported(env, w, raw) && ConfigOf(env, raw).transport.TransportSSH?
    requires HasRevision(env, raw, rev) && 0 < rev < MAX_UINT64 && RequestOk(env, w.peer, Transition(m))
    requires Find(env, PeersOf(raw), w.peer) == Ok(found)
    requires PeerTyped(moved) && PeerView(moved).id == w.peer && PeerOk(env, ConfigOf(env, raw).hostname, PeerView(moved), true)
    requires TargetOf(env, PeerView(moved)) == WrittenTarget(env, w)
    requires ApplyTransition(env, ObjAt(raw, Ssh), PeersOf(raw), w.peer, m) == Ok(Edit(ObjAt(raw, Ssh), Placed(PeersOf(raw), found, moved)))
    ensures RunPeerOp(env, raw, w.peer, rev, Transition(m)).Ok?
  {
    VersionedHasRevision(env, raw);
    PlacingSucceeds(env, w, raw, rev, Editor(env, w.peer, Transition(m)), ObjAt(raw, Ssh), found, moved);
  }

  lemma MoveEdit(env: Env, ssh: Fields, peers: seq<Fields>, id: Txt, found: Option<nat>, m: Move)
    requires Find(env, peers, id) == Ok(found) && found.Some?
    requires var peer := peers[found.value];
      && PeerTyped(peer) && PeerView(peer).migrationState == m.from && MoveOk(env, PeerView(peer), m)
      && !m.next.Loopback? && ListOk(peer, MigrationLog)
    ensures Moved(peers[found.value], m).Ok?
    ensures ApplyTransition(env, ssh, peers, id, m) == Ok(Edit(ssh, Placed(peers, found, Moved(peers[found.value], m).value)))
  {
  }

  lemma MaterialSucceeds(env: Env, job: Job, w: Write, raw: Fields, rev: nat)
    requires env.WellFormed() && PlanJob(env, job, w) && Supported(env, w, raw)
    requires HasRevision(env, raw, rev) && 0 < rev < MAX_UINT64
    ensures RunMaterial(env, raw, rev, JobMaterial(job)).Ok?
  {
    var doc := Parse(env, raw).value;
    VersionedHasRevision(env, raw);
    ParsedReadsAs(env, raw);
    MaterialOutcome(env, raw, doc, rev, JobMaterial(job));
  }

  // ---- and keep the document supported ----

  lemma MaterialKeepsSupported(env: Env, w: Write, raw: Fields, rev: nat, m: Material)
    requires env.WellFormed() && Supported(env, w, raw) && m.transport.Some?
    requires RunMaterial(env, raw, rev, m).Ok?
    ensures Supported(env, w, RunMaterial(env, raw, rev, m).value)
  {
    MaterialReadsBack(env, raw, rev, m);
    VersionedHasRevision(env, RunMaterial(env, raw, rev, m).value);
    ParsedReadsAs(env, RunMaterial(env, raw, rev, m).value);
  }

  lemma PeerOpKeepsSupported(env: Env, w: Write, raw: Fields, rev: nat, op: PeerOp)
    requires env.WellFormed() && Supported(env, w, raw) && ConfigOf(env, raw).transport.TransportSSH?
    requires RunPeerOp(env, raw, w.peer, rev, op).Ok?
    requires SupportedPeer(env, PeerAfter(env, PeerAt(raw, w.peer), w.peer, op))
    ensures Supported(env, w, RunPeerOp(env, raw, w.peer, rev, op).value)
  {
    var out := RunPeerOp(env, raw, w.peer, rev, op).value;
    PeerOpReadsBack(env, raw, w.peer, rev, op);
    PeerOpFrame(env, raw, w.peer, rev, op);
    ParsedReadsAs(env, out);
  }
}
