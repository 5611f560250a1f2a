/** Applying a pair's configuration writes to one host's document, threading the
    revision through every write (internal/sshprovision/config_applicator.go, run
    for one target host as internal/cli/ssh_apply_direct_config.go does). */
module Applicators {
  import opened Wrappers
  import opened Jsons
  import opened Configs
  import opened Documents
  import opened PeerOps
  import opened PeerEffects
  import opened Stores

  // ---- the mutation ----

  datatype Write = Write(
    target: Txt, peer: Txt, sshHost: Txt, sshUser: Txt, sshPort: int, installPath: Txt, gatewayPath: Txt, targetGatewayPath: Txt,
    enabled: bool, accept: bool, connect: bool, persistent: bool, onDemand: bool,
    state: Txt, acceptVerifiedBy: Txt, connectVerifiedBy: Txt)

  datatype KeyMaterial = KeyMaterial(privateKeyPath: Txt, keyID: Txt)

  datatype Mutation = Mutation(
    connectHost: Txt, writes: seq<Write>, sharedKey: Txt,
    syncKeys: map<Txt, KeyMaterial>, knownHosts: map<Txt, Txt>,
    connectorKey: KeyMaterial, connectorKnownHosts: Txt)

  function SyncKeyFor(m: Mutation, host: Txt): Option<KeyMaterial> {
    if host in m.syncKeys then Some(m.syncKeys[host])
    else if host == m.connectHost && !m.connectorKey.privateKeyPath.Empty? then Some(m.connectorKey)
    else None
  }

  function KnownHostsFor(m: Mutation, host: Txt): Option<Txt> {
    if host in m.knownHosts && !m.knownHosts[host].Empty? then Some(m.knownHosts[host])
    else if host == m.connectHost && !m.connectorKnownHosts.Empty? then Some(m.connectorKnownHosts)
    else None
  }

  /** Nothing is written unless the mutation has all the material it needs. */
  predicate MutationOk(env: Env, m: Mutation, host: Txt) {
    && env.sharedKeyOk(m.sharedKey)
    && SyncKeyFor(m, host).Some? && KnownHostsFor(m, host).Some?
    && forall i :: 0 <= i < |m.writes| && m.writes[i].target == host ==> SyncKeyFor(m, m.writes[i].peer).Some?
  }

  function IfNotEmpty(t: Txt): Option<Txt> {
    if t.Empty? then None else Some(t)
  }

  function FieldsFor(w: Write, known: bool): UpsertFields {
    UpsertFields(Some(w.peer), Some(w.enabled), Some(w.accept), Some(w.connect), Some(w.persistent), Some(w.onDemand),
                 if w.connect then IfNotEmpty(w.sshHost) else None,
                 if w.connect then IfNotEmpty(w.sshUser) else None,
                 if w.connect then Some(w.sshPort) else None,
                 IfNotEmpty(w.installPath), IfNotEmpty(w.gatewayPath),
                 if known then None else Some(w.state), None)
  }

  function VerifiedBy(t: Txt): Txt {
    if t.Empty? then RegularSSH else t
  }

  function AcceptPatch(w: Write, key: KeyMaterial, at: Txt): Option<ProofPatch> {
    if !w.accept then None
    else Some(ProofPatch(key.keyID, if w.targetGatewayPath.Empty? then w.gatewayPath else w.targetGatewayPath, at, VerifiedBy(w.acceptVerifiedBy)))
  }

  function ConnectPatch(w: Write, key: KeyMaterial, at: Txt): Option<ProofPatch> {
    if !w.connect then None else Some(ProofPatch(key.keyID, w.gatewayPath, at, VerifiedBy(w.connectVerifiedBy)))
  }

  // ---- the host's file between our calls ----

  datatype Fault = NoFault | BeforeWrite | AfterWrite

  /** The mutators that the applicator calls, and what can happen around call k:
      other writers change the document before it, and it fails without or with
      its effect. */
  datatype World = World(ops: (Fields, Request) -> Result<Fields>, noise: (nat, Fields) -> Fields, fault: nat -> Fault)

  /** The same mutators with no interference and no failing call. */
  function Quiet(world: World): World {
    world.(noise := (k: nat, raw: Fields) => raw, fault := (k: nat) => NoFault)
  }

  /** The mutators of the configuration package. */
  ghost predicate Real(env: Env, world: World) {
    forall raw: Fields, r: Request :: world.ops(raw, r) == Attempt(env, raw, r)
  }

  /** What the applicator knows of a peer. */
  datatype PeerState = Missing | Known(state: Txt)

  datatype Run = Run(raw: Fields, calls: nat, rev: nat, states: map<Txt, PeerState>, sent: nat, ok: bool)

  /** One write at the revision held; the next revision is taken from its result. */
  function Send(env: Env, world: World, run: Run, r: Request): Run {
    if !run.ok then run else
    var raw := world.noise(run.calls, run.raw);
    var run' := run.(raw := raw, calls := run.calls + 1);
    if world.fault(run.calls).BeforeWrite? || world.ops(raw, r).Err? then run'.(ok := false)
    else
      var out := world.ops(raw, r).value;
      var rev := RevisionOf(env, out);
      if world.fault(run.calls).AfterWrite? || rev.None? || rev.value == 0 then run'.(raw := out, ok := false)
      else run'.(raw := out, rev := rev.value, sent := run.sent + 1)
  }

  /** A read: other writers may have been there before. */
  function Look(world: World, run: Run): Run {
    run.(raw := world.noise(run.calls, run.raw), calls := run.calls + 1, ok := run.ok && !world.fault(run.calls).BeforeWrite?)
  }

  /** Read the revision; a document without one gets its first. */
  function ReadRevision(env: Env, world: World, run: Run): Run {
    var seen := Look(world, run);
    if !seen.ok || Parse(env, seen.raw).Err? then seen.(ok := false) else
    var doc := Parse(env, seen.raw).value;
    if doc.revision.Some? then seen.(rev := doc.revision.value)
    else Ensured(env, world, seen, doc)
  }

  function Ensured(env: Env, world: World, seen: Run, doc: Document): Run {
    var ensured := Send(env, world, seen, Scoped(Expectation(doc.state, None), KeepConfig));
    var again := Look(world, ensured);
    if !again.ok || RevisionOf(env, again.raw).None? then again.(ok := false)
    else again.(rev := RevisionOf(env, again.raw).value, sent := seen.sent)
  }

  function ReadPeerState(env: Env, world: World, run: Run, w: Write): Run {
    if !run.ok || w.peer in run.states then run else
    var seen := Look(world, run);
    if !seen.ok || Parse(env, seen.raw).Err? || !env.hostIDOk(w.peer) then seen.(ok := false) else
    var peers := PeersOf(seen.raw);
    var found := Find(env, peers, w.peer);
    if found.Err? then seen.(ok := false)
    else seen.(states := seen.states[w.peer := if found.value.None? then Missing else Known(StrAt(peers[found.value.value], MigrationState))])
  }

  // ---- the steps for one write ----

  datatype Phase = Reading | Checking | Upserting | Proving | Staging | Readying

  /** Constants of one Apply. */
  datatype Job = Job(m: Mutation, host: Txt, at: Txt, logID: Txt)

  predicate SupportedState(s: Txt) {
    s.Loopback? || s.Failed? || s.Staged? || s.Ready?
  }

  /** A write that succeeded has brought the peer to that state. */
  function Marked(run: Run, w: Write, state: Txt): Run {
    if run.ok then run.(states := run.states[w.peer := Known(state)]) else run
  }

  function MoveTo(env: Env, world: World, job: Job, run: Run, w: Write, from: Txt, next: Txt, reason: Txt): Run {
    Marked(Send(env, world, run, ForPeer(w.peer, run.rev, Transition(Move(from, next, reason, job.logID, None, None)))), w, next)
  }

  function StateOf(run: Run, w: Write): PeerState {
    if w.peer in run.states then run.states[w.peer] else Missing
  }

  function UpsertStep(env: Env, world: World, run: Run, w: Write): Run {
    var state := StateOf(run, w);
    var sent := Send(env, world, run, ForPeer(w.peer, run.rev, Upsert(FieldsFor(w, state.Known?))));
    if state.Missing? then Marked(sent, w, w.state) else sent
  }

  function ProofStep(env: Env, world: World, job: Job, run: Run, w: Write): Run {
    var acceptKey, connectKey := SyncKeyFor(job.m, w.peer), SyncKeyFor(job.m, w.target);
    if acceptKey.None? || connectKey.None? then run.(ok := false)
    else Send(env, world, run, ForPeer(w.peer, run.rev, PatchProof(AcceptPatch(w, acceptKey.value, job.at), ConnectPatch(w, connectKey.value, job.at))))
  }

  function StageReason(from: Txt): Txt {
    if from.Loopback? then MaterialStaged else RetryProgress
  }

  function StageStep(env: Env, world: World, job: Job, run: Run, w: Write): Run {
    var state := StateOf(run, w);
    if state.Missing? then run.(ok := false)
    else if state.state.Loopback? || state.state.Failed? then
      MoveTo(env, world, job, run, w, state.state, Staged, StageReason(state.state))
    else if state.state.Staged? || state.state.Ready? then run
    else run.(ok := false)
  }

  function ReadyStep(env: Env, world: World, job: Job, run: Run, w: Write): Run {
    var state := StateOf(run, w);
    if state.Missing? then run.(ok := false)
    else if state.state.Staged? then MoveTo(env, world, job, run, w, Staged, Ready, SSHMaterialVerified)
    else if state.state.Ready? then run
    else run.(ok := false)
  }

  function StepOf(env: Env, world: World, job: Job, phase: Phase, run: Run, w: Write): Run {
    if !run.ok || w.target != job.host then run else
    match phase
    case Reading => ReadPeerState(env, world, run, w)
    case Checking => if StateOf(run, w).Known? && !SupportedState(StateOf(run, w).state) then run.(ok := false) else run
    case Upserting => UpsertStep(env, world, run, w)
    case Proving => ProofStep(env, world, job, run, w)
    case Staging => StageStep(env, world, job, run, w)
    case Readying => ReadyStep(env, world, job, run, w)
  }

  /** The first n writes of the mutation, one after the other. */
  function Pass(env: Env, world: World, job: Job, phase: Phase, run: Run, n: nat): Run
    requires n <= |job.m.writes|
  {
    if n == 0 then run
    else StepOf(env, world, job, phase, Pass(env, world, job, phase, run, n - 1), job.m.writes[n - 1])
  }

  function FullPass(env: Env, world: World, job: Job, phase: Phase, run: Run): Run {
    Pass(env, world, job, phase, run, |job.m.writes|)
  }

  function JobMaterial(job: Job): Material
    requires SyncKeyFor(job.m, job.host).Some? && KnownHostsFor(job.m, job.host).Some?
  {
    Material(Some(TransportSSH), IfNotEmpty(job.m.sharedKey), Some(SyncKeyFor(job.m, job.host).value.privateKeyPath), Some(KnownHostsFor(job.m, job.host).value))
  }

  function SendMaterial(env: Env, world: World, job: Job, run: Run): Run {
    if !run.ok then run else
    var key, knownHosts := SyncKeyFor(job.m, job.host), KnownHostsFor(job.m, job.host);
    if key.None? || knownHosts.None? then run.(ok := false)
    else Send(env, world, run, ForMaterial(run.rev, JobMaterial(job)))
  }

  lemma SendMaterialIs(env: Env, world: World, job: Job, run: Run)
    ensures SendMaterial(env, world, job, run).ok ==>
      && run.ok && SyncKeyFor(job.m, job.host).Some? && KnownHostsFor(job.m, job.host).Some?
    ensures run.ok && SyncKeyFor(job.m, job.host).Some? && KnownHostsFor(job.m, job.host).Some? ==>
      SendMaterial(env, world, job, run) == Send(env, world, run, ForMaterial(run.rev, JobMaterial(job)))
  {
  }

  /** Read and check the peers, then write the host's own material. */
  function FirstPart(env: Env, world: World, job: Job, run: Run): Run {
    SendMaterial(env, world, job, FullPass(env, world, job, Checking, FullPass(env, world, job, Reading, run)))
  }

  /** Then write the peers, their proofs, and stage them. */
  function SecondPart(env: Env, world: World, job: Job, run: Run): Run {
    FullPass(env, world, job, Staging, FullPass(env, world, job, Proving, FullPass(env, world, job, Upserting, run)))
  }

  function StagePart(env: Env, world: World, job: Job, run: Run): Run {
    SecondPart(env, world, job, FirstPart(env, world, job, run))
  }

  function StartRun(raw: Fields, calls: nat): Run {
    Run(raw, calls, 0, map[], 0, true)
  }

  function ApplyStage(env: Env, world: World, job: Job, raw: Fields, calls: nat): Run {
    if !MutationOk(env, job.m, job.host) then StartRun(raw, calls).(ok := false)
    else StagePart(env, world, job, ReadRevision(env, world, StartRun(raw, calls)))
  }

  function ApplyReady(env: Env, world: World, job: Job, raw: Fields, calls: nat): Run {
    var start := ReadRevision(env, world, StartRun(raw, calls));
    FullPass(env, world, job, Readying, FullPass(env, world, job, Reading, start))
  }

  function ApplyAll(env: Env, world: World, job: Job, raw: Fields, calls: nat): Run {
    if !MutationOk(env, job.m, job.host) then StartRun(raw, calls).(ok := false)
    else FullPass(env, world, job, Readying, StagePart(env, world, job, ReadRevision(env, world, StartRun(raw, calls))))
  }

  /** The first error ends a pass. */
  lemma {:induction false} ErrorEndsPass(env: Env, world: World, job: Job, phase: Phase, run: Run, i: nat, n: nat)
    requires i <= n <= |job.m.writes| && !Pass(env, world, job, phase, run, i).ok
    ensures Pass(env, world, job, phase, run, n) == Pass(env, world, job, phase, run, i)
    decreases n
  {
    if i < n {
      ErrorEndsPass(env, world, job, phase, run, i, n - 1);
    }
  }

  // ---- the loops ----

  /** One Apply at work: the host's file, and the revision and peer states held. */
  class Applicator {
    var raw: Fields
    var calls: nat
    var rev: nat
    var states: map<Txt, PeerState>
    var sent: nat

    constructor (raw: Fields, calls: nat)
      ensures AsRun(true) == StartRun(raw, calls)
    {
      this.raw, this.calls := raw, calls;
      rev, states, sent := 0, map[], 0;
    }

    function AsRun(ok: bool): Run
      reads this
    {
      Run(raw, calls, rev, states, sent, ok)
    }

    method Interfere(world: World)
      modifies this
      ensures AsRun(true) == old(AsRun(true)).(raw := world.noise(old(calls), old(raw)), calls := old(calls) + 1)
    {
      raw, calls := world.noise(calls, raw), calls + 1;
    }

    method Submit(env: Env, world: World, r: Request) returns (ok: bool)
      modifies this
      ensures AsRun(ok) == Send(env, world, old(AsRun(true)), r)
    {
      var fault := world.fault(calls);
      Interfere(world);
      if fault.BeforeWrite? {
        return false;
      }
      var result := world.ops(raw, r);
      if result.Err? {
        return false;
      }
      raw := result.value;
      var revision := RevisionOf(env, raw);
      if fault.AfterWrite? || revision.None? || revision.value == 0 {
        return false;
      }
      rev, sent := revision.value, sent + 1;
      return true;
    }

    method Mark(w: Write, state: Txt)
      modifies this
      ensures AsRun(true) == Marked(old(AsRun(true)), w, state)
    {
      states := states[w.peer := Known(state)];
    }

    method ReadStates(env: Env, world: World, job: Job) returns (ok: bool)
      modifies this
      ensures AsRun(ok) == FullPass(env, world, job, Reading, old(AsRun(true)))
    {
      ghost var start := AsRun(true);
      for i := 0 to |job.m.writes|
        invariant AsRun(true) == Pass(env, world, job, Reading, start, i)
      {
        var w := job.m.writes[i];
        if w.target != job.host || w.peer in states {
          continue;
        }
        var fault := world.fault(calls);
        Interfere(world);
        if fault.BeforeWrite? || Parse(env, raw).Err? || !env.hostIDOk(w.peer) || Find(env, PeersOf(raw), w.peer).Err? {
          ErrorEndsPass(env, world, job, Reading, start, i + 1, |job.m.writes|);
          return false;
        }
        var found := Find(env, PeersOf(raw), w.peer).value;
        states := states[w.peer := if found.None? then Missing else Known(StrAt(PeersOf(raw)[found.value], MigrationState))];
      }
      return true;
    }

    method CheckStates(env: Env, world: World, job: Job) returns (ok: bool)
      ensures AsRun(ok) == FullPass(env, world, job, Checking, AsRun(true))
    {
      for i := 0 to |job.m.writes|
        invariant AsRun(true) == Pass(env, world, job, Checking, AsRun(true), i)
      {
        var w := job.m.writes[i];
        if w.target == job.host && w.peer in states && states[w.peer].Known? && !SupportedState(states[w.peer].state) {
          ErrorEndsPass(env, world, job, Checking, AsRun(true), i + 1, |job.m.writes|);
          return false;
        }
      }
      return true;
    }

    method UpsertPeers(env: Env, world: World, job: Job) returns (ok: bool)
      modifies this
      ensures AsRun(ok) == FullPass(env, world, job, Upserting, old(AsRun(true)))
    {
      ghost var start := AsRun(true);
      for i := 0 to |job.m.writes|
        invariant AsRun(true) == Pass(env, world, job, Upserting, start, i)
      {
        var w := job.m.writes[i];
        if w.target != job.host {
          continue;
        }
        var known := w.peer in states && states[w.peer].Known?;
        ghost var before := AsRun(true);
        var r := ForPeer(w.peer, rev, Upsert(FieldsFor(w, known)));
        var sent := Submit(env, world, r);
        assert AsRun(sent) == Send(env, world, before, r);
        if !sent {
          ErrorEndsPass(env, world, job, Upserting, start, i + 1, |job.m.writes|);
          return false;
        }
        if !known {
          Mark(w, w.state);
        }
      }
      return true;
    }

    method PatchProofs(env: Env, world: World, job: Job) returns (ok: bool)
      modifies this
      ensures AsRun(ok) == FullPass(env, world, job, Proving, old(AsRun(true)))
    {
      ghost var start := AsRun(true);
      for i := 0 to |job.m.writes|
        invariant AsRun(true) == Pass(env, world, job, Proving, start, i)
      {
        var w := job.m.writes[i];
        if w.target != job.host {
          continue;
        }
        var acceptKey, connectKey := SyncKeyFor(job.m, w.peer), SyncKeyFor(job.m, w.target);
        var sent := false;
        if acceptKey.Some? && connectKey.Some? {
          sent := Submit(env, world, ForPeer(w.peer, rev, PatchProof(AcceptPatch(w, acceptKey.value, job.at), ConnectPatch(w, connectKey.value, job.at))));
        }
        if !sent {
          ErrorEndsPass(env, world, job, Proving, start, i + 1, |job.m.writes|);
          return false;
        }
      }
      return true;
    }

    method Transit(env: Env, world: World, job: Job, w: Write, from: Txt, next: Txt, reason: Txt) returns (ok: bool)
      modifies this
      ensures AsRun(ok) == MoveTo(env, world, job, old(AsRun(true)), w, from, next, reason)
    {
      ok := Submit(env, world, ForPeer(w.peer, rev, Transition(Move(from, next, reason, job.logID, None, None))));
      if ok {
        Mark(w, next);
      }
    }

    method StagePeers(env: Env, world: World, job: Job) returns (ok: bool)
      modifies this
      ensures AsRun(ok) == FullPass(env, world, job, Staging, old(AsRun(true)))
    {
      ghost var start := AsRun(true);
      for i := 0 to |job.m.writes|
        invariant AsRun(true) == Pass(env, world, job, Staging, start, i)
      {
        var w := job.m.writes[i];
        if w.target != job.host {
          continue;
        }
        var state := if w.peer in states then states[w.peer] else Missing;
        var done := state.Known? && (state.state.Staged? || state.state.Ready?);
        if state.Known? && (state.state.Loopback? || state.state.Failed?) {
          done := Transit(env, world, job, w, state.state, Staged, StageReason(state.state));
        }
        if !done {
          ErrorEndsPass(env, world, job, Staging, start, i + 1, |job.m.writes|);
          return false;
        }
      }
      return true;
    }

    method ReadyPeers(env: Env, world: World, job: Job) returns (ok: bool)
      modifies this
      ensures AsRun(ok) == FullPass(env, world, job, Readying, old(AsRun(true)))
    {
      ghost var start := AsRun(true);
      for i := 0 to |job.m.writes|
        invariant AsRun(true) == Pass(env, world, job, Readying, start, i)
      {
        var w := job.m.writes[i];
        if w.target != job.host {
          continue;
        }
        var state := if w.peer in states then states[w.peer] else Missing;
        var done := state.Known? && state.state.Ready?;
        if state.Known? && state.state.Staged? {
          done := Transit(env, world, job, w, Staged, Ready, SSHMaterialVerified);
        }
        if !done {
          ErrorEndsPass(env, world, job, Readying, start, i + 1, |job.m.writes|);
          return false;
        }
      }
      return true;
    }

    method WriteMaterial(env: Env, world: World, job: Job) returns (ok: bool)
      modifies this
      ensures AsRun(ok) == SendMaterial(env, world, job, old(AsRun(true)))
    {
      var key, knownHosts := SyncKeyFor(job.m, job.host), KnownHostsFor(job.m, job.host);
      if key.None? || knownHosts.None? {
        return false;
      }
      ok := Submit(env, world, ForMaterial(rev, JobMaterial(job)));
    }

    /** Give the document its first revision and read it back. */
    method EnsureRevision(env: Env, world: World, doc: Document) returns (ok: bool)
      modifies this
      ensures AsRun(ok) == Ensured(env, world, old(AsRun(true)), doc)
    {
      var before := sent;
      var ensured := Submit(env, world, Scoped(Expectation(doc.state, None), KeepConfig));
      var fault := world.fault(calls);
      Interfere(world);
      var revision := RevisionOf(env, raw);
      if !ensured || fault.BeforeWrite? || revision.None? {
        return false;
      }
      rev, sent := revision.value, before;
      return true;
    }

    method LearnRevision(env: Env, world: World) returns (ok: bool)
      modifies this
      ensures AsRun(ok) == ReadRevision(env, world, old(AsRun(true)))
    {
      var fault := world.fault(calls);
      Interfere(world);
      if fault.BeforeWrite? || Parse(env, raw).Err? {
        return false;
      }
      var doc := Parse(env, raw).value;
      if doc.revision.Some? {
        rev := doc.revision.value;
        return true;
      }
      ok := EnsureRevision(env, world, doc);
    }

    method Stage(env: Env, world: World, job: Job) returns (ok: bool)
      modifies this
      ensures AsRun(ok) == StagePart(env, world, job, old(AsRun(true)))
    {
      ok := ReadStates(env, world, job);
      if ok { ok := CheckStates(env, world, job); }
      if ok { ok := WriteMaterial(env, world, job); }
      if ok { ok := UpsertPeers(env, world, job); }
      if ok { ok := PatchProofs(env, world, job); }
      if ok { ok := StagePeers(env, world, job); }
      FailedRunsStay(env, world, job);
    }

    /** Apply in the phase given; the caller sees an error as false. */
    method Apply(env: Env, world: World, job: Job, phase: ApplyPhase) returns (ok: bool)
      requires rev == 0 && states == map[] && sent == 0
      modifies this
      ensures AsRun(ok) == Applied(env, world, job, phase, old(raw), old(calls))
    {
      if !phase.ReadyOnly? && !MutationOk(env, job.m, job.host) {
        return false;
      }
      ok := LearnRevision(env, world);
      if ok && !phase.ReadyOnly? { ok := Stage(env, world, job); }
      if ok && phase.ReadyOnly? { ok := ReadStates(env, world, job); }
      if ok && !phase.StageOnly? { ok := ReadyPeers(env, world, job); }
      FailedRunsStay(env, world, job);
    }
  }

  /** A failed run goes through every later part unchanged. */
  lemma FailedRunsStay(env: Env, world: World, job: Job)
    ensures forall run: Run, phase: Phase :: !run.ok ==> FullPass(env, world, job, phase, run) == run
    ensures forall run: Run :: !run.ok ==> SendMaterial(env, world, job, run) == run
    ensures forall run: Run :: !run.ok ==> StagePart(env, world, job, run) == run
  {
    forall run: Run, phase: Phase | !run.ok
      ensures FullPass(env, world, job, phase, run) == run
    {
      assert Pass(env, world, job, phase, run, 0) == run;
      ErrorEndsPass(env, world, job, phase, run, 0, |job.m.writes|);
    }
  }

  datatype ApplyPhase = StageOnly | ReadyOnly | Both

  function Applied(env: Env, world: World, job: Job, phase: ApplyPhase, raw: Fields, calls: nat): Run {
    match phase
    case StageOnly => ApplyStage(env, world, job, raw, calls)
    case ReadyOnly => ApplyReady(env, world, job, raw, calls)
    case Both => ApplyAll(env, world, job, raw, calls)
  }
}
