/** What provisioning a pair guarantees: no configuration before both probes, no
    ready peer before both hosts are staged, and two hosts that admit each other. */
module Barriers {
  import opened Wrappers
  import opened Jsons
  import opened Configs
  import opened Documents
  import opened PeerOps
  import opened PeerLists
  import opened PeerEffects
  import opened PeerTypedViews
  import opened Stores
  import opened Applicators
  import opened Progress
  import opened Resumption
  import opened Runs
  import opened Provisions
  import opened Admissions
  import Provenance

  // ---- configuration comes after both probes ----

  predicate WritesConfig(c: Call) {
    c.StageHost? || c.ReadyHost?
  }

  lemma {:induction false} OtherCallsKeepDocs(env: Env, p: Pair, driver: Driver, s: State, calls: seq<Call>)
    requires forall i :: 0 <= i < |calls| ==> !WritesConfig(calls[i])
    ensures Play(env, p, driver, s, calls).docs == s.docs
    decreases |calls|
  {
    if calls != [] && s.ok {
      OneCallKeepsDocs(env, p, driver, s, calls[0]);
      OtherCallsKeepDocs(env, p, driver, Made(env, p, driver, s, calls[0]), calls[1..]);
    }
  }

  lemma OneCallKeepsDocs(env: Env, p: Pair, driver: Driver, s: State, call: Call)
    requires !WritesConfig(call)
    ensures Made(env, p, driver, s, call).docs == s.docs
  {
  }

  lemma FirstTenCalls(p: Pair)
    ensures var c, a := p.connector.id, p.acceptor.id;
      CallsBefore(p, 5) == [Confirm(a), Confirm(c), Pin(c, a), Pin(a, c), EnsureKey(c), EnsureKey(a), Authorize(c, a), Authorize(a, c), Probe(c, a), Probe(a, c)]
  {
    assert CallsBefore(p, 1) == StepCalls(p, 0);
    assert CallsBefore(p, 2) == StepCalls(p, 0) + StepCalls(p, 1);
    assert CallsBefore(p, 3) == StepCalls(p, 0) + StepCalls(p, 1) + StepCalls(p, 2);
    assert CallsBefore(p, 4) == StepCalls(p, 0) + StepCalls(p, 1) + StepCalls(p, 2) + StepCalls(p, 3);
    assert CallsBefore(p, 5) == CallsBefore(p, 4) + StepCalls(p, 4);
  }

  lemma FirstCalls(p: Pair)
    ensures Script(p) == CallsBefore(p, 5) + [StageHost(p.connector.id), StageHost(p.acceptor.id), ReadyHost(p.connector.id), ReadyHost(p.acceptor.id)]
    ensures |CallsBefore(p, 5)| == 10
    ensures forall i :: 0 <= i < |CallsBefore(p, 5)| ==> !WritesConfig(CallsBefore(p, 5)[i])
    ensures Probe(p.connector.id, p.acceptor.id) in CallsBefore(p, 5) && Probe(p.acceptor.id, p.connector.id) in CallsBefore(p, 5)
  {
    FirstTenCalls(p);
    var first := CallsBefore(p, 5);
    assert first[8] == Probe(p.connector.id, p.acceptor.id) && first[9] == Probe(p.acceptor.id, p.connector.id);
  }

  /** A run that changed any document made, successfully, every call before the
      configuration write: both probes among them. */
  lemma ConfigAfterProbes(env: Env, p: Pair, driver: Driver, docs: map<Txt, Fields>)
    requires Provision(env, p, driver, docs).docs != docs
    ensures Play(env, p, driver, Fresh(docs), CallsBefore(p, 5)).ok
    ensures Probe(p.connector.id, p.acceptor.id) in CallsBefore(p, 5) && Probe(p.acceptor.id, p.connector.id) in CallsBefore(p, 5)
  {
    FirstCalls(p);
    var first := CallsBefore(p, 5);
    PlayConcat(env, p, driver, Fresh(docs), first, Script(p)[10..]);
    assert Script(p) == first + Script(p)[10..];
    OtherCallsKeepDocs(env, p, driver, Fresh(docs), first);
  }

  // ---- no ready peer before both hosts are staged ----

  /** The peer is ready after only if it was ready before. */
  ghost predicate NoNewReady(before: Fields, after: Fields, id: Txt) {
    StateIn(after, id) == Known(Ready) ==> StateIn(before, id) == Known(Ready)
  }

  lemma OtherPeerUnchanged(env: Env, raw: Fields, q: Txt, rev: nat, op: PeerOp, id: Txt)
    requires env.WellFormed() && RunPeerOp(env, raw, q, rev, op).Ok? && q != id
    ensures PeerAt(RunPeerOp(env, raw, q, rev, op).value, id) == PeerAt(raw, id)
  {
    PeerOpFrame(env, raw, q, rev, op);
    FramedPeerUnchanged(raw, RunPeerOp(env, raw, q, rev, op).value, q, id);
  }

  lemma FramedPeerUnchanged(before: Fields, after: Fields, q: Txt, id: Txt)
    requires Framed(before, after, q) && q != id
    ensures PeerAt(after, id) == PeerAt(before, id)
  {
    OthersKeepRest(PeersOf(before), q, id);
    OthersKeepRest(PeersOf(after), q, id);
  }

  lemma StateAfterMove(before: Option<Fields>, env: Env, id: Txt, m: Move)
    requires before.Some? && Moved(before.value, m).Ok?
    ensures PeerAfter(env, before, id, Transition(m)) == Some(Moved(before.value, m).value)
    ensures StrAt(Moved(before.value, m).value, MigrationState) == m.next
  {
  }

  /** The requests of the stage phase. */
  predicate StageRequest(r: Request) {
    match r
    case ForMaterial(_, _) => true
    case ForPeer(_, _, op) => op.Upsert? || op.PatchProof? || (op.Transition? && op.move.next.Staged?)
    case _ => false
  }

  lemma StageRequestNeverReadies(env: Env, raw: Fields, r: Request, id: Txt)
    requires env.WellFormed() && StageRequest(r) && Attempt(env, raw, r).Ok?
    ensures NoNewReady(raw, Attempt(env, raw, r).value, id)
  {
    match r
    case ForMaterial(expected, m) => MaterialReadsBack(env, raw, expected, m);
    case ForPeer(q, expected, op) =>
      if q != id {
        OtherPeerUnchanged(env, raw, q, expected, op, id);
      } else {
        PeerOpNeverReadies(env, raw, q, expected, op);
      }
    case _ =>
  }

  lemma PeerOpNeverReadies(env: Env, raw: Fields, id: Txt, rev: nat, op: PeerOp)
    requires env.WellFormed() && RunPeerOp(env, raw, id, rev, op).Ok?
    requires op.Upsert? || op.PatchProof? || (op.Transition? && op.move.next.Staged?)
    ensures NoNewReady(raw, RunPeerOp(env, raw, id, rev, op).value, id)
  {
    PeerOpFrame(env, raw, id, rev, op);
    Provenance.PeerOpAdmitted(env, raw, id, rev, op);
    match op
    case Upsert(f) => Provenance.UpsertedHistory(env, BaseOf(PeerAt(raw, id), id), f);
    case PatchProof(accept, connect) => PatchedState(env, PeerAt(raw, id), id, accept, connect);
    case Transition(m) => StateAfterMove(PeerAt(raw, id), env, id, m);
  }

  lemma SendNeverReadies(env: Env, world: World, run: Run, r: Request, id: Txt)
    requires env.WellFormed() && Calm(env, world) && StageRequest(r)
    ensures NoNewReady(run.raw, Send(env, world, run, r).raw, id)
  {
    if run.ok {
      CalmSend(env, world, run, r);
      if Attempt(env, run.raw, r).Ok? {
        StageRequestNeverReadies(env, run.raw, r, id);
      }
    }
  }

  lemma StagingNeverReadies(env: Env, world: World, job: Job, run: Run, w: Write, id: Txt)
    requires env.WellFormed() && Calm(env, world)
    ensures NoNewReady(run.raw, StageStep(env, world, job, run, w).raw, id)
  {
    var state := StateOf(run, w);
    if state.Known? {
      SendNeverReadies(env, world, run, ForPeer(w.peer, run.rev, Transition(Move(state.state, Staged, StageReason(state.state), job.logID, None, None))), id);
    }
  }

  lemma ProvingNeverReadies(env: Env, world: World, job: Job, run: Run, w: Write, id: Txt)
    requires env.WellFormed() && Calm(env, world)
    ensures NoNewReady(run.raw, ProofStep(env, world, job, run, w).raw, id)
  {
    var acceptKey, connectKey := SyncKeyFor(job.m, w.peer), SyncKeyFor(job.m, w.target);
    if acceptKey.Some? && connectKey.Some? {
      SendNeverReadies(env, world, run, ForPeer(w.peer, run.rev, PatchProof(AcceptPatch(w, acceptKey.value, job.at), ConnectPatch(w, connectKey.value, job.at))), id);
    }
  }

  lemma StepNeverReadies(env: Env, world: World, job: Job, phase: Phase, run: Run, w: Write, id: Txt)
    requires env.WellFormed() && Calm(env, world) && !phase.Readying?
    ensures NoNewReady(run.raw, StepOf(env, world, job, phase, run, w).raw, id)
  {
    match phase
    case Reading => assert world.noise(run.calls, run.raw) == run.raw;
    case Checking =>
    case Upserting => SendNeverReadies(env, world, run, ForPeer(w.peer, run.rev, Upsert(FieldsFor(w, StateOf(run, w).Known?))), id);
    case Proving => ProvingNeverReadies(env, world, job, run, w, id);
    case Staging => StagingNeverReadies(env, world, job, run, w, id);
  }

  lemma NoNewReadyChains(a: Fields, b: Fields, c: Fields, id: Txt)
    requires NoNewReady(a, b, id) && NoNewReady(b, c, id)
    ensures NoNewReady(a, c, id)
  {
  }

  /** What every step of a pass keeps, the pass keeps. */
  lemma {:induction false} PassKeeps(env: Env, world: World, job: Job, phase: Phase, run: Run, n: nat, inv: Fields -> bool)
    requires n <= |job.m.writes| && inv(run.raw)
    requires forall r: Run, w: Write :: inv(r.raw) ==> inv(StepOf(env, world, job, phase, r, w).raw)
    ensures inv(Pass(env, world, job, phase, run, n).raw)
  {
    if n > 0 {
      PassKeeps(env, world, job, phase, run, n - 1, inv);
    }
  }

  lemma NextNeverReadies(env: Env, world: World, job: Job, phase: Phase, start: Fields, r: Run, w: Write, id: Txt)
    requires env.WellFormed() && Calm(env, world) && !phase.Readying? && NoNewReady(start, r.raw, id)
    ensures NoNewReady(start, StepOf(env, world, job, phase, r, w).raw, id)
  {
    StepNeverReadies(env, world, job, phase, r, w, id);
    NoNewReadyChains(start, r.raw, StepOf(env, world, job, phase, r, w).raw, id);
  }

  lemma PassNeverReadies(env: Env, world: World, job: Job, phase: Phase, run: Run, n: nat, id: Txt)
    requires env.WellFormed() && Calm(env, world) && !phase.Readying? && n <= |job.m.writes|
    ensures NoNewReady(run.raw, Pass(env, world, job, phase, run, n).raw, id)
  {
    var start := run.raw;
    var inv := (d: Fields) => NoNewReady(start, d, id);
    forall r: Run, w: Write | inv(r.raw)
      ensures inv(StepOf(env, world, job, phase, r, w).raw)
    {
      NextNeverReadies(env, world, job, phase, start, r, w, id);
    }
    PassKeeps(env, world, job, phase, run, n, inv);
  }

  lemma MaterialNeverReadies(env: Env, world: World, job: Job, run: Run, id: Txt)
    requires env.WellFormed() && Calm(env, world)
    ensures NoNewReady(run.raw, SendMaterial(env, world, job, run).raw, id)
  {
    var key, knownHosts := SyncKeyFor(job.m, job.host), KnownHostsFor(job.m, job.host);
    if key.Some? && knownHosts.Some? {
      SendNeverReadies(env, world, run, ForMaterial(run.rev, JobMaterial(job)), id);
    }
  }

  lemma StagePartNeverReadies(env: Env, world: World, job: Job, run: Run, id: Txt)
    requires env.WellFormed() && Calm(env, world)
    ensures NoNewReady(run.raw, StagePart(env, world, job, run).raw, id)
  {
    var n := |job.m.writes|;
    var read := FullPass(env, world, job, Reading, run);
    var checked := FullPass(env, world, job, Checking, read);
    var material := SendMaterial(env, world, job, checked);
    var upserted := FullPass(env, world, job, Upserting, material);
    var proved := FullPass(env, world, job, Proving, upserted);
    PassNeverReadies(env, world, job, Reading, run, n, id);
    PassNeverReadies(env, world, job, Checking, read, n, id);
    MaterialNeverReadies(env, world, job, checked, id);
    PassNeverReadies(env, world, job, Upserting, material, n, id);
    PassNeverReadies(env, world, job, Proving, upserted, n, id);
    PassNeverReadies(env, world, job, Staging, proved, n, id);
  }

  /** A first write keeps the typed peers, so their states. */
  lemma EnsureNeverReadies(env: Env, raw: Fields, id: Txt)
    requires env.WellFormed() && Parse(env, raw).Ok? && Parse(env, raw).value.revision.None?
    requires UpdateScoped(env, raw, FirstWrite(Parse(env, raw).value), KeepConfig).Ok?
    ensures NoNewReady(raw, UpdateScoped(env, raw, FirstWrite(Parse(env, raw).value), KeepConfig).value, id)
  {
    var doc := Parse(env, raw).value;
    VersionedHasRevision(env, raw);
    EnsureWrites(env, raw);
    var out := UpdateScoped(env, raw, FirstWrite(doc), KeepConfig).value;
    RawPeersDecode(env, raw);
    ParsedPeers(env, out);
    assert PeerViews([]) == [];
    assert PeerViews(PeersOf(raw)) == PeerViews(PeersOf(out));
    SameViewsSamePeer(PeersOf(raw), PeersOf(out), id);
  }

  lemma ReadRevisionNeverReadies(env: Env, world: World, raw: Fields, calls: nat, id: Txt)
    requires env.WellFormed() && Calm(env, world)
    ensures NoNewReady(raw, ReadRevision(env, world, StartRun(raw, calls)).raw, id)
  {
    CalmReadRevision(env, world, raw, calls);
    if ReadRevision(env, world, StartRun(raw, calls)).raw != raw {
      EnsureNeverReadies(env, raw, id);
    }
  }

  /** The stage phase makes no peer ready, however far it gets. */
  lemma StageNeverReadies(env: Env, world: World, job: Job, raw: Fields, calls: nat, id: Txt)
    requires env.WellFormed() && Calm(env, world)
    ensures NoNewReady(raw, ApplyStage(env, world, job, raw, calls).raw, id)
  {
    ReadRevisionNeverReadies(env, world, raw, calls, id);
    StagePartNeverReadies(env, world, job, ReadRevision(env, world, StartRun(raw, calls)), id);
  }

  ghost predicate CalmDriver(env: Env, driver: Driver) {
    forall k: nat :: Calm(env, driver.world(k))
  }

  lemma {:induction false} StagingCallsNeverReady(env: Env, p: Pair, driver: Driver, s: State, calls: seq<Call>, host: Txt, id: Txt)
    requires env.WellFormed() && CalmDriver(env, driver) && host in s.docs
    requires forall i :: 0 <= i < |calls| ==> !calls[i].ReadyHost?
    ensures var out := Play(env, p, driver, s, calls);
      host in out.docs && NoNewReady(s.docs[host], out.docs[host], id)
    decreases |calls|
  {
    if calls != [] && s.ok {
      var next := Made(env, p, driver, s, calls[0]);
      OneCallNeverReadies(env, p, driver, s, calls[0], host, id);
      StagingCallsNeverReady(env, p, driver, next, calls[1..], host, id);
    }
  }

  function StageAt(env: Env, p: Pair, driver: Driver, s: State, host: Txt): Run
    requires host in s.docs
  {
    ApplyStage(env, driver.world(s.made), JobAt(p, driver, s.keys, host, s.made), s.docs[host], 0)
  }

  function ReadyAt(env: Env, p: Pair, driver: Driver, s: State, host: Txt): Run
    requires host in s.docs
  {
    ApplyReady(env, driver.world(s.made), JobAt(p, driver, s.keys, host, s.made), s.docs[host], 0)
  }

  /** The command of call k is neither lost nor left unanswered. */
  predicate SureAt(driver: Driver, k: nat) {
    !driver.lost(k) && driver.answered(k)
  }

  lemma StageCallIs(env: Env, p: Pair, driver: Driver, s: State, host: Txt)
    requires host in s.docs
    ensures var out, run := Made(env, p, driver, s, StageHost(host)), StageAt(env, p, driver, s, host);
      && (out.docs == s.docs || out.docs == s.docs[host := run.raw])
      && (out.ok ==> run.ok && out.docs == s.docs[host := run.raw])
      && (SureAt(driver, s.made) && run.ok ==> out.ok)
      && out.keys == s.keys && out.made == s.made + 1
  {
  }

  lemma ReadyCallIs(env: Env, p: Pair, driver: Driver, s: State, host: Txt)
    requires host in s.docs
    ensures var out, run := Made(env, p, driver, s, ReadyHost(host)), ReadyAt(env, p, driver, s, host);
      && (out.docs == s.docs || out.docs == s.docs[host := run.raw])
      && (SureAt(driver, s.made) && run.ok ==> out.ok)
      && (out.ok ==> run.ok && out.docs == s.docs[host := run.raw])
      && out.keys == s.keys && out.made == s.made + 1
  {
  }

  lemma StageCallNeverReadies(env: Env, p: Pair, driver: Driver, s: State, host: Txt, id: Txt)
    requires env.WellFormed() && CalmDriver(env, driver) && host in s.docs
    ensures NoNewReady(s.docs[host], StageAt(env, p, driver, s, host).raw, id)
  {
    assert Calm(env, driver.world(s.made));
    StageNeverReadies(env, driver.world(s.made), JobAt(p, driver, s.keys, host, s.made), s.docs[host], 0, id);
  }

  lemma OneCallNeverReadies(env: Env, p: Pair, driver: Driver, s: State, call: Call, host: Txt, id: Txt)
    requires env.WellFormed() && CalmDriver(env, driver) && host in s.docs && !call.ReadyHost?
    ensures var out := Made(env, p, driver, s, call);
      host in out.docs && NoNewReady(s.docs[host], out.docs[host], id)
  {
    if call.StageHost? && call.host in s.docs {
      StageCallIs(env, p, driver, s, call.host);
      StageCallNeverReadies(env, p, driver, s, call.host, id);
    } else if call.StageHost? {
      MissingHostKeepsDocs(env, p, driver, s, call);
    } else {
      OneCallKeepsDocs(env, p, driver, s, call);
    }
  }

  lemma MissingHostKeepsDocs(env: Env, p: Pair, driver: Driver, s: State, call: Call)
    requires call.StageHost? && call.host !in s.docs
    ensures Made(env, p, driver, s, call).docs == s.docs
  {
  }

  /** The two-phase barrier: if provisioning made any peer ready on any host, then
      every call up to the staging of both hosts had succeeded. */
  lemma ReadyAfterBothStaged(env: Env, p: Pair, driver: Driver, docs: map<Txt, Fields>, host: Txt, id: Txt)
    requires env.WellFormed() && CalmDriver(env, driver) && host in docs
    ensures host in Provision(env, p, driver, docs).docs
    ensures !NoNewReady(docs[host], Provision(env, p, driver, docs).docs[host], id) ==>
      Play(env, p, driver, Fresh(docs), CallsBefore(p, 5) + [StageHost(p.connector.id), StageHost(p.acceptor.id)]).ok
  {
    FirstCalls(p);
    var staged := CallsBefore(p, 5) + [StageHost(p.connector.id), StageHost(p.acceptor.id)];
    assert Script(p) == staged + [ReadyHost(p.connector.id), ReadyHost(p.acceptor.id)];
    PlayConcat(env, p, driver, Fresh(docs), staged, [ReadyHost(p.connector.id), ReadyHost(p.acceptor.id)]);
    StagingCallsNeverReady(env, p, driver, Fresh(docs), staged, host, id);
    PlayKeepsHosts(env, p, driver, Fresh(docs), Script(p), host);
  }

  lemma {:induction false} PlayKeepsHosts(env: Env, p: Pair, driver: Driver, s: State, calls: seq<Call>, host: Txt)
    requires host in s.docs
    ensures host in Play(env, p, driver, s, calls).docs
    decreases |calls|
  {
    if calls != [] && s.ok {
      MadeKeepsHosts(env, p, driver, s, calls[0], host);
      PlayKeepsHosts(env, p, driver, Made(env, p, driver, s, calls[0]), calls[1..], host);
    }
  }

  lemma MadeKeepsHosts(env: Env, p: Pair, driver: Driver, s: State, call: Call, host: Txt)
    requires host in s.docs
    ensures host in Made(env, p, driver, s, call).docs
  {
  }

  // ---- two hosts that admit each other ----

  /** What one host must hold about its peer: its gateway admits the peer with
      the peer's key, its session list has the peer with the host's own key, and
      its end of the edge is healthy. */
  ghost predicate Agrees(cfg: Config, peer: Txt, ownKey: Txt, peerKey: Txt) {
    && Admits(cfg, peer, peerKey)
    && cfg.ssh.Some? && EndHealthy(FirstPeer(cfg.ssh.value.peers, peer))
    && (cfg.ssh.value.maxSessions == 0 ==> exists s :: s in SyncPeers(cfg) && s.id == peer && s.connectKeyID == ownKey)
  }

  lemma {:induction false} FirstPeerOfViews(peers: seq<Fields>, id: Txt)
    ensures FirstPeer(PeerViews(peers), id) == if PeerIn(peers, id).Some? then Some(PeerView(PeerIn(peers, id).value)) else None
  {
    if peers != [] {
      assert PeerViews(peers)[1..] == PeerViews(peers[1..]);
      FirstPeerOfViews(peers[1..], id);
    }
  }

  lemma AgreesFrom(cfg: Config, view: SSHPeer, ownKey: Txt, peerKey: Txt)
    requires cfg.transport.TransportSSH? && HasMaterial(cfg)
    requires FirstPeer(cfg.ssh.value.peers, view.id) == Some(view) && KeepsSession(view) && view.accept
    requires view.proof.acceptKeyID == peerKey && view.proof.connectKeyID == ownKey && !ownKey.Empty? && !peerKey.Empty?
    ensures Agrees(cfg, view.id, ownKey, peerKey)
  {
    FirstPeerIn(cfg.ssh.value.peers, view.id);
    KeeperListed(cfg.ssh.value, cfg.ssh.value.peers, view);
    if cfg.ssh.value.maxSessions == 0 {
      assert SyncPeers(cfg) == Keepers(cfg.ssh.value, cfg.ssh.value.peers);
      assert SyncPeerOf(cfg.ssh.value, view) in SyncPeers(cfg);
    }
  }

  /** A document at the last level satisfies the runtime. */
  lemma ReachedAgrees(env: Env, job: Job, w: Write, raw: Fields)
    requires env.WellFormed() && PlanJob(env, job, w) && Reached(env, job, w, raw, 5)
    ensures Agrees(ConfigOf(env, raw), w.peer, OwnKey(job, w).keyID, PeerKey(job, w).keyID)
  {
    var cfg := ConfigOf(env, raw);
    assert FirstPeer(cfg.ssh.value.peers, w.peer) == FirstPeer(PeerViews(PeersOf(raw)), w.peer) by {
      VersionedHasRevision(env, raw);
      ParsedPeers(env, raw);
    }
    FirstPeerOfViews(PeersOf(raw), w.peer);
    var view := PeerView(PeerAt(raw, w.peer).value);
    GoalKeeps(env, job, w, view);
    AgreesFrom(cfg, view, OwnKey(job, w).keyID, PeerKey(job, w).keyID);
  }

  lemma GoalKeeps(env: Env, job: Job, w: Write, view: SSHPeer)
    requires env.WellFormed() && PlanJob(env, job, w) && view == GoalPeer(env, w, Ready, GoalProof(job, w))
    ensures KeepsSession(view) && view.accept && view.id == w.peer && view.enabled && view.connect
    ensures view.proof.acceptKeyID == PeerKey(job, w).keyID && view.proof.connectKeyID == OwnKey(job, w).keyID
    ensures !view.proof.acceptKeyID.Empty? && !view.proof.connectKeyID.Empty?
    ensures !OwnKey(job, w).privateKeyPath.Empty? && !KnownHostsFor(job.m, job.host).value.Empty?
  {
  }

  /** The ready phase does not use its clock. */
  lemma {:induction false} PassIgnoresClock(env: Env, world: World, job: Job, at: Txt, phase: Phase, run: Run, n: nat)
    requires n <= |job.m.writes| && (phase.Reading? || phase.Readying?)
    ensures Pass(env, world, job, phase, run, n) == Pass(env, world, job.(at := at), phase, run, n)
  {
    if n > 0 {
      PassIgnoresClock(env, world, job, at, phase, run, n - 1);
    }
  }

  lemma ReadyIgnoresClock(env: Env, world: World, job: Job, at: Txt, raw: Fields)
    ensures ApplyReady(env, world, job, raw, 0) == ApplyReady(env, world, job.(at := at), raw, 0)
  {
    var start := ReadRevision(env, world, StartRun(raw, 0));
    PassIgnoresClock(env, world, job, at, Reading, start, |job.m.writes|);
    PassIgnoresClock(env, world, job, at, Readying, FullPass(env, world, job, Reading, start), |job.m.writes|);
  }

  // the keys that the two hosts end up with

  ghost predicate GoodClock(env: Env, driver: Driver) {
    forall k: nat :: env.timeOk(driver.at(k)) && !env.blank(driver.logID(k))
  }

  /** The state after the probes: both keys are there and valid. */
  ghost predicate KeysKnown(env: Env, p: Pair, s: State) {
    && p.connector.id in s.keys && p.acceptor.id in s.keys
    && KeyOk(env, s.keys[p.connector.id]) && KeyOk(env, s.keys[p.acceptor.id])
  }

  lemma WriteIsPlanned(env: Env, p: Pair, target: Host, peer: Host, s: State, at: Txt, logID: Txt)
    requires env.WellFormed() && PairOk(env, p) && KeysKnown(env, p, s) && env.timeOk(at) && !env.blank(logID)
    requires (target == p.connector && peer == p.acceptor) || (target == p.acceptor && peer == p.connector)
    ensures PlanJob(env, Job(MutationOf(p, s.keys), target.id, at, logID), Reciprocal(target, peer))
  {
  }

  lemma WriteIsAlone(p: Pair, target: Host, peer: Host, job: Job)
    requires p.connector.id != p.acceptor.id && job.m.writes == WritesOf(p) && job.host == target.id
    requires (target == p.connector && peer == p.acceptor) || (target == p.acceptor && peer == p.connector)
    ensures Alone(job, Reciprocal(target, peer))
  {
    if target == p.connector {
      assert job.m.writes[0] == Reciprocal(target, peer);
    } else {
      assert job.m.writes[1] == Reciprocal(target, peer);
    }
  }

  lemma WriteFor(env: Env, p: Pair, target: Host, peer: Host, s: State, at: Txt, logID: Txt)
    requires env.WellFormed() && PairOk(env, p) && KeysKnown(env, p, s) && env.timeOk(at) && !env.blank(logID)
    requires (target == p.connector && peer == p.acceptor) || (target == p.acceptor && peer == p.connector)
    ensures var job, w := Job(MutationOf(p, s.keys), target.id, at, logID), Reciprocal(target, peer);
      && PlanJob(env, job, w) && Alone(job, w)
      && OwnKey(job, w) == s.keys[target.id] && PeerKey(job, w) == s.keys[peer.id]
  {
    WriteIsPlanned(env, p, target, peer, s, at, logID);
    WriteIsAlone(p, target, peer, Job(MutationOf(p, s.keys), target.id, at, logID));
  }

  /** Staging one host and then readying it, with any other call on the other
      host in between, brings it to the last level. */
  lemma HostCompletes(env: Env, p: Pair, driver: Driver, target: Host, peer: Host, s: State, later: State)
    requires env.WellFormed() && PairOk(env, p) && CalmDriver(env, driver) && GoodClock(env, driver) && KeysKnown(env, p, s)
    requires (target == p.connector && peer == p.acceptor) || (target == p.acceptor && peer == p.connector)
    requires target.id in s.docs && StageAt(env, p, driver, s, target.id).ok
    requires target.id in later.docs && later.docs[target.id] == StageAt(env, p, driver, s, target.id).raw && later.keys == s.keys
    requires ReadyAt(env, p, driver, later, target.id).ok
    ensures Parse(env, ReadyAt(env, p, driver, later, target.id).raw).Ok?
    ensures Agrees(ConfigOf(env, ReadyAt(env, p, driver, later, target.id).raw), peer.id, s.keys[target.id].keyID, s.keys[peer.id].keyID)
  {
    var w := Reciprocal(target, peer);
    var job := JobAt(p, driver, s.keys, target.id, s.made);
    var job' := JobAt(p, driver, s.keys, target.id, later.made).(at := job.at);
    WriteFor(env, p, target, peer, s, job.at, job.logID);
    WriteFor(env, p, target, peer, s, job.at, job'.logID);
    assert Calm(env, driver.world(s.made)) && Calm(env, driver.world(later.made));
    StageRun(env, driver.world(s.made), job, w, s.docs[target.id], 0);
    ReadyIgnoresClock(env, driver.world(later.made), JobAt(p, driver, s.keys, target.id, later.made), job.at, later.docs[target.id]);
    ReadyRun(env, driver.world(later.made), job', w, later.docs[target.id], 0);
    ReachedAgrees(env, job', w, ReadyAt(env, p, driver, later, target.id).raw);
  }

  predicate KeyKnown(env: Env, driver: Driver, s: State, host: Txt) {
    host in s.keys && s.keys[host] == driver.keyOf(host) && KeyOk(env, s.keys[host])
  }

  lemma OneCallKeepsKeys(env: Env, p: Pair, driver: Driver, s: State, call: Call, host: Txt)
    requires KeyKnown(env, driver, s, host) || call == EnsureKey(host)
    ensures Made(env, p, driver, s, call).ok ==> KeyKnown(env, driver, Made(env, p, driver, s, call), host)
  {
  }

  lemma {:induction false} KeysAfter(env: Env, p: Pair, driver: Driver, s: State, calls: seq<Call>, host: Txt)
    requires KeyKnown(env, driver, s, host) || EnsureKey(host) in calls
    ensures Play(env, p, driver, s, calls).ok ==> KeyKnown(env, driver, Play(env, p, driver, s, calls), host)
    decreases |calls|
  {
    if calls != [] && s.ok {
      var next := Made(env, p, driver, s, calls[0]);
      if KeyKnown(env, driver, s, host) || calls[0] == EnsureKey(host) {
        OneCallKeepsKeys(env, p, driver, s, calls[0], host);
      } else {
        assert EnsureKey(host) in calls[1..];
      }
      if next.ok {
        KeysAfter(env, p, driver, next, calls[1..], host);
      }
    }
  }

  lemma KeysAfterProbes(env: Env, p: Pair, driver: Driver, docs: map<Txt, Fields>)
    ensures var s := Play(env, p, driver, Fresh(docs), CallsBefore(p, 5));
      s.ok ==> KeyKnown(env, driver, s, p.connector.id) && KeyKnown(env, driver, s, p.acceptor.id) && s.docs == docs
  {
    FirstCalls(p);
    var first := CallsBefore(p, 5);
    assert CallsBefore(p, 3) == CallsBefore(p, 2) + StepCalls(p, 2);
    assert EnsureKey(p.connector.id) in StepCalls(p, 2) && EnsureKey(p.acceptor.id) in StepCalls(p, 2);
    assert CallsBefore(p, 4) == CallsBefore(p, 3) + StepCalls(p, 3);
    assert first == CallsBefore(p, 4) + StepCalls(p, 4);
    KeysAfter(env, p, driver, Fresh(docs), first, p.connector.id);
    KeysAfter(env, p, driver, Fresh(docs), first, p.acceptor.id);
    OtherCallsKeepDocs(env, p, driver, Fresh(docs), first);
  }

  lemma PlayOne(env: Env, p: Pair, driver: Driver, s: State, call: Call, rest: seq<Call>)
    requires s.ok
    ensures Play(env, p, driver, s, [call] + rest) == Play(env, p, driver, Made(env, p, driver, s, call), rest)
  {
    assert ([call] + rest)[1..] == rest;
  }

  /** The four configuration calls of a run that succeeds. */
  lemma FourCalls(env: Env, p: Pair, driver: Driver, s: State)
    requires Play(env, p, driver, s, StepCalls(p, 5)).ok
    ensures var c, a := p.connector.id, p.acceptor.id;
      var s1 := Made(env, p, driver, s, StageHost(c));
      var s2 := Made(env, p, driver, s1, StageHost(a));
      var s3 := Made(env, p, driver, s2, ReadyHost(c));
      var s4 := Made(env, p, driver, s3, ReadyHost(a));
      s.ok && s1.ok && s2.ok && s3.ok && s4.ok && Play(env, p, driver, s, StepCalls(p, 5)) == s4
  {
    var c, a := p.connector.id, p.acceptor.id;
    var s1 := Made(env, p, driver, s, StageHost(c));
    var s2 := Made(env, p, driver, s1, StageHost(a));
    var s3 := Made(env, p, driver, s2, ReadyHost(c));
    assert StepCalls(p, 5) == [StageHost(c)] + [StageHost(a), ReadyHost(c), ReadyHost(a)];
    PlayOne(env, p, driver, s, StageHost(c), [StageHost(a), ReadyHost(c), ReadyHost(a)]);
    assert [StageHost(a), ReadyHost(c), ReadyHost(a)] == [StageHost(a)] + [ReadyHost(c), ReadyHost(a)];
    PlayOne(env, p, driver, s1, StageHost(a), [ReadyHost(c), ReadyHost(a)]);
    assert [ReadyHost(c), ReadyHost(a)] == [ReadyHost(c)] + [ReadyHost(a)];
    PlayOne(env, p, driver, s2, ReadyHost(c), [ReadyHost(a)]);
    assert [ReadyHost(a)] == [ReadyHost(a)] + [];
    PlayOne(env, p, driver, s3, ReadyHost(a), []);
  }

  /** The configuration calls complete both hosts. */
  lemma PairCompletes(env: Env, p: Pair, driver: Driver, s: State, s1: State, s2: State, s3: State, s4: State)
    requires env.WellFormed() && PairOk(env, p) && CalmDriver(env, driver) && GoodClock(env, driver) && KeysKnown(env, p, s)
    requires p.connector.id in s.docs && p.acceptor.id in s.docs
    requires s1 == Made(env, p, driver, s, StageHost(p.connector.id)) && s1.ok
    requires s2 == Made(env, p, driver, s1, StageHost(p.acceptor.id)) && s2.ok
    requires s3 == Made(env, p, driver, s2, ReadyHost(p.connector.id)) && s3.ok
    requires s4 == Made(env, p, driver, s3, ReadyHost(p.acceptor.id)) && s4.ok
    ensures var c, a, out := p.connector.id, p.acceptor.id, s4.docs;
      && c in out && a in out && Parse(env, out[c]).Ok? && Parse(env, out[a]).Ok?
      && Agrees(ConfigOf(env, out[c]), a, s.keys[c].keyID, s.keys[a].keyID)
      && Agrees(ConfigOf(env, out[a]), c, s.keys[a].keyID, s.keys[c].keyID)
  {
    var c, a := p.connector.id, p.acceptor.id;
    StageCallIs(env, p, driver, s, c);
    StageCallIs(env, p, driver, s1, a);
    ReadyCallIs(env, p, driver, s2, c);
    ReadyCallIs(env, p, driver, s3, a);
    HostCompletes(env, p, driver, p.connector, p.acceptor, s, s2);
    HostCompletes(env, p, driver, p.acceptor, p.connector, s1, s3);
  }

  /** Provisioning agrees with runtime admission: after a run that succeeds, and
      before anyone else writes, each host's gateway admits the other's id and
      key id, each host's session list holds the other with that same key id,
      and the edge is healthy, so a second heal skips it. */
  lemma ProvisioningAgrees(env: Env, p: Pair, driver: Driver, docs: map<Txt, Fields>)
    requires env.WellFormed() && PairOk(env, p) && CalmDriver(env, driver) && GoodClock(env, driver)
    requires p.connector.id in docs && p.acceptor.id in docs
    requires Provision(env, p, driver, docs).ok
    ensures var c, a, out := p.connector.id, p.acceptor.id, Provision(env, p, driver, docs).docs;
      && c in out && a in out && Parse(env, out[c]).Ok? && Parse(env, out[a]).Ok?
      && Agrees(ConfigOf(env, out[c]), a, driver.keyOf(c).keyID, driver.keyOf(a).keyID)
      && Agrees(ConfigOf(env, out[a]), c, driver.keyOf(a).keyID, driver.keyOf(c).keyID)
      && EdgeHealthy(FirstPeer(ConfigOf(env, out[c]).ssh.value.peers, a), FirstPeer(ConfigOf(env, out[a]).ssh.value.peers, c))
  {
    var c, a := p.connector.id, p.acceptor.id;
    FirstCalls(p);
    assert Script(p) == CallsBefore(p, 5) + StepCalls(p, 5);
    PlayConcat(env, p, driver, Fresh(docs), CallsBefore(p, 5), StepCalls(p, 5));
    var s := Play(env, p, driver, Fresh(docs), CallsBefore(p, 5));
    KeysAfterProbes(env, p, driver, docs);
    FourCalls(env, p, driver, s);
    var s1 := Made(env, p, driver, s, StageHost(c));
    var s2 := Made(env, p, driver, s1, StageHost(a));
    var s3 := Made(env, p, driver, s2, ReadyHost(c));
    PairCompletes(env, p, driver, s, s1, s2, s3, Made(env, p, driver, s3, ReadyHost(a)));
  }
}
