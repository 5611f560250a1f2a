/** Provisioning a pair of hosts: the plan, the ordered driver calls, and the
    two-phase configuration write (internal/sshprovision/pair_plan.go,
    internal/sshprovision/pair_executor.go, internal/sshprovision/regular_ssh_driver.go). */
module Provisions {
  import opened Wrappers
  import opened Jsons
  import opened Configs
  import opened PeerOps
  import opened PeerEffects
  import opened Stores
  import opened Applicators

  // ---- hosts and plans ----

  datatype Host = Host(id: Txt, sshHost: Txt, sshUser: Txt, sshPort: int, installPath: Txt, gatewayPath: Txt, tailscale: bool)

  /** A host after normalisation. */
  predicate HostOk(env: Env, h: Host) {
    && env.hostIDOk(h.id) && env.canonicalHost(h.sshHost) == Some(h.sshHost) && env.userOk(h.sshUser)
    && 1 <= h.sshPort <= 65535 && env.pathOk(h.installPath) && env.pathOk(h.gatewayPath)
  }

  function VerifierOf(h: Host): Txt {
    if h.tailscale then TailscaleSSH else RegularSSH
  }

  function Reciprocal(target: Host, peer: Host): Write {
    Write(target.id, peer.id, peer.sshHost, peer.sshUser, peer.sshPort, peer.installPath, peer.gatewayPath, target.gatewayPath,
          true, true, true, true, false, Loopback, VerifierOf(target), VerifierOf(peer))
  }

  /** The pair and its local files; the connector is the host whose id sorts first. */
  datatype Pair = Pair(connector: Host, acceptor: Host, knownHosts: map<Txt, Txt>, sharedKey: Txt)

  predicate PairOk(env: Env, p: Pair) {
    && HostOk(env, p.connector) && HostOk(env, p.acceptor) && p.connector.id != p.acceptor.id
    && p.connector.id in p.knownHosts && p.acceptor.id in p.knownHosts
    && env.pathOk(p.knownHosts[p.connector.id]) && env.pathOk(p.knownHosts[p.acceptor.id])
    && env.sharedKeyOk(p.sharedKey) && !p.sharedKey.Empty?
  }

  /** How the input names a host's SSH server, trimmed. */
  datatype ServerMode = OpenSSH | TailscaleServer | OtherServer(name: string)

  datatype GivenHost = GivenHost(id: Txt, sshHost: Txt, sshUser: Txt, sshPort: int, installPath: Txt, gatewayPath: Txt, mode: ServerMode)

  /** A host as it is given, with the endpoint for administering it, if it has one
      of its own, and its local files. */
  datatype ProvisionHost = ProvisionHost(host: GivenHost, admin: GivenHost, knownHostsPath: Txt, syncKeyPath: Txt)

  /** The host with its SSH name in canonical form, if everything about it is valid. */
  function NormalizedHost(env: Env, h: GivenHost): Result<Host> {
    var name := env.canonicalHost(h.sshHost);
    if !env.hostIDOk(h.id) then Err("invalid host id")
    else if name.None? then Err("invalid ssh host")
    else if !env.userOk(h.sshUser) then Err("invalid ssh user")
    else if h.sshPort < 1 || h.sshPort > 65535 then Err("invalid ssh port")
    else if !env.pathOk(h.installPath) || !env.pathOk(h.gatewayPath) then Err("invalid path")
    else if h.mode.OtherServer? then Err("invalid_ssh_server_mode")
    else Ok(Host(h.id, name.value, h.sshUser, h.sshPort, h.installPath, h.gatewayPath, h.mode.TailscaleServer?))
  }

  /** Where commands for a host are sent: its own endpoint unless it has another. */
  function AdminHost(env: Env, h: ProvisionHost): Result<Host> {
    NormalizedHost(env, if h.admin.id.Empty? then h.host else h.admin)
  }

  function NormalizedProvision(env: Env, h: ProvisionHost): Result<Host> {
    var host :- NormalizedHost(env, h.host);
    var admin :- AdminHost(env, h);
    if admin.id != host.id then Err("admin host id mismatch")
    else if !env.pathOk(h.knownHostsPath) then Err("invalid known_hosts path")
    else if !env.syncKeyPathOk(h.syncKeyPath) || !env.pathOk(h.syncKeyPath) then Err("invalid sync key path")
    else Ok(host)
  }

  /** The plan's pair: the host whose id sorts first connects. */
  function PlanPair(env: Env, sortsBefore: (Txt, Txt) -> bool, local: ProvisionHost, remote: ProvisionHost, sharedKey: Txt): Result<Pair> {
    var l :- NormalizedProvision(env, local);
    var r :- NormalizedProvision(env, remote);
    if l.id == r.id then Err("duplicate host id")
    else if !env.sharedKeyOk(sharedKey) then Err("invalid_shared_key")
    else
      var knownHosts := map[l.id := local.knownHostsPath, r.id := remote.knownHostsPath];
      Ok(if sortsBefore(r.id, l.id) then Pair(r, l, knownHosts, sharedKey) else Pair(l, r, knownHosts, sharedKey))
  }

  lemma NormalizedHostOk(env: Env, h: ProvisionHost)
    requires env.WellFormed() && NormalizedProvision(env, h).Ok?
    ensures HostOk(env, NormalizedProvision(env, h).value) && env.pathOk(h.knownHostsPath)
    ensures AdminHost(env, h).Ok? && HostOk(env, AdminHost(env, h).value)
    ensures AdminHost(env, h).value.id == NormalizedProvision(env, h).value.id == h.host.id
  {
  }

  /** Every planned pair is fit for provisioning, and commands for either host go
      to a valid endpoint of that host. */
  lemma PlannedPairIsOk(env: Env, sortsBefore: (Txt, Txt) -> bool, local: ProvisionHost, remote: ProvisionHost, sharedKey: Txt)
    requires env.WellFormed() && PlanPair(env, sortsBefore, local, remote, sharedKey).Ok?
    ensures PairOk(env, PlanPair(env, sortsBefore, local, remote, sharedKey).value)
    ensures AdminHost(env, local).Ok? && AdminHost(env, local).value.id == local.host.id
    ensures AdminHost(env, remote).Ok? && AdminHost(env, remote).value.id == remote.host.id
  {
    NormalizedHostOk(env, local);
    NormalizedHostOk(env, remote);
    PairOfOk(env, NormalizedProvision(env, local).value, NormalizedProvision(env, remote).value,
             local.knownHostsPath, remote.knownHostsPath, sharedKey, PlanPair(env, sortsBefore, local, remote, sharedKey).value);
  }

  lemma PairOfOk(env: Env, l: Host, r: Host, localFile: Txt, remoteFile: Txt, sharedKey: Txt, p: Pair)
    requires env.WellFormed() && HostOk(env, l) && HostOk(env, r) && l.id != r.id && env.sharedKeyOk(sharedKey)
    requires env.pathOk(localFile) && env.pathOk(remoteFile)
    requires var files := map[l.id := localFile, r.id := remoteFile];
      p == Pair(l, r, files, sharedKey) || p == Pair(r, l, files, sharedKey)
    ensures PairOk(env, p)
  {
  }

  /** The endpoints for administering the hosts do not show in the plan. */
  lemma AdminOnlyRoutes(env: Env, sortsBefore: (Txt, Txt) -> bool, local: ProvisionHost, remote: ProvisionHost, sharedKey: Txt,
                        a: GivenHost, b: GivenHost)
    requires PlanPair(env, sortsBefore, local, remote, sharedKey).Ok?
    requires PlanPair(env, sortsBefore, local.(admin := a), remote.(admin := b), sharedKey).Ok?
    ensures PlanPair(env, sortsBefore, local.(admin := a), remote.(admin := b), sharedKey) == PlanPair(env, sortsBefore, local, remote, sharedKey)
  {
  }

  /** Both hosts plan the same pair, whichever of them is the local one. */
  lemma PlanIsSymmetric(env: Env, sortsBefore: (Txt, Txt) -> bool, a: ProvisionHost, b: ProvisionHost, sharedKey: Txt)
    requires a.host.id != b.host.id ==> sortsBefore(a.host.id, b.host.id) != sortsBefore(b.host.id, a.host.id)
    ensures var one, other := PlanPair(env, sortsBefore, a, b, sharedKey), PlanPair(env, sortsBefore, b, a, sharedKey);
      one.Ok? == other.Ok? && (one.Ok? ==> one == other)
  {
    if PlanPair(env, sortsBefore, a, b, sharedKey).Ok? {
      assert map[a.host.id := a.knownHostsPath, b.host.id := b.knownHostsPath] == map[b.host.id := b.knownHostsPath, a.host.id := a.knownHostsPath];
    }
  }

  function WritesOf(p: Pair): seq<Write> {
    [Reciprocal(p.connector, p.acceptor), Reciprocal(p.acceptor, p.connector)]
  }

  function MutationOf(p: Pair, keys: map<Txt, KeyMaterial>): Mutation {
    Mutation(p.connector.id, WritesOf(p), p.sharedKey, keys, p.knownHosts,
             if p.connector.id in keys then keys[p.connector.id] else KeyMaterial(Empty, Empty),
             if p.connector.id in p.knownHosts then p.knownHosts[p.connector.id] else Empty)
  }

  // ---- steps and driver calls ----

  datatype Step =
    | ConfirmHostKey | UpsertKnownHostPin | EnsureSyncKey | InstallAuthorizedKey | ProbeForcedCommand
    | WriteConnectorPeer | WriteAcceptorPeer | PatchProofs | TransitionStaged | TransitionReady

  const PLAN_STEPS: seq<Step> :=
    [ConfirmHostKey, UpsertKnownHostPin, EnsureSyncKey, InstallAuthorizedKey, ProbeForcedCommand,
     WriteConnectorPeer, WriteAcceptorPeer, PatchProofs, TransitionStaged, TransitionReady]

  datatype Call =
    | Confirm(target: Txt)
    | Pin(source: Txt, target: Txt)
    | EnsureKey(host: Txt)
    | Authorize(source: Txt, target: Txt)
    | Probe(source: Txt, target: Txt)
    | StageHost(host: Txt)
    | ReadyHost(host: Txt)

  /** All driver calls of a run that succeeds, in order; the configuration write
      stages each host, then readies each. */
  function Script(p: Pair): seq<Call> {
    var c, a := p.connector.id, p.acceptor.id;
    [Confirm(a), Confirm(c), Pin(c, a), Pin(a, c), EnsureKey(c), EnsureKey(a),
     Authorize(c, a), Authorize(a, c), Probe(c, a), Probe(a, c),
     StageHost(c), StageHost(a), ReadyHost(c), ReadyHost(a)]
  }

  // ---- the driver ----

  /** What happens at call k: whether the command is lost before or after its
      effect, and how the remote applicator fares. */
  datatype Driver = Driver(
    lost: nat -> bool, answered: nat -> bool, keyOf: Txt -> KeyMaterial,
    world: nat -> World, at: nat -> Txt, logID: nat -> Txt)

  datatype State = State(docs: map<Txt, Fields>, keys: map<Txt, KeyMaterial>, made: nat, ok: bool)

  predicate KeyOk(env: Env, key: KeyMaterial) {
    env.pathOk(key.privateKeyPath) && env.keyIDOk(key.keyID)
  }

  function JobAt(p: Pair, driver: Driver, keys: map<Txt, KeyMaterial>, host: Txt, k: nat): Job {
    Job(MutationOf(p, keys), host, driver.at(k), driver.logID(k))
  }

  /** One call on the state; made counts the calls including a failing last one. */
  function Made(env: Env, p: Pair, driver: Driver, s: State, call: Call): State {
    var k := s.made;
    var s := s.(made := k + 1);
    if driver.lost(k) then s.(ok := false) else
    match call
    case EnsureKey(host) =>
      var key := driver.keyOf(host);
      if KeyOk(env, key) && driver.answered(k) then s.(keys := s.keys[host := key]) else s.(ok := false)
    case StageHost(host) =>
      if host !in s.docs then s.(ok := false) else
      var run := ApplyStage(env, driver.world(k), JobAt(p, driver, s.keys, host, k), s.docs[host], 0);
      s.(docs := s.docs[host := run.raw], ok := run.ok && driver.answered(k))
    case ReadyHost(host) =>
      if host !in s.docs then s.(ok := false) else
      var run := ApplyReady(env, driver.world(k), JobAt(p, driver, s.keys, host, k), s.docs[host], 0);
      s.(docs := s.docs[host := run.raw], ok := run.ok && driver.answered(k))
    case _ => s.(ok := driver.answered(k))
  }

  /** The script from call k on, up to the first failure. */
  function Play(env: Env, p: Pair, driver: Driver, s: State, script: seq<Call>): State
    decreases |script|
  {
    if script == [] || !s.ok then s else Play(env, p, driver, Made(env, p, driver, s, script[0]), script[1..])
  }

  function Fresh(docs: map<Txt, Fields>): State {
    State(docs, map[], 0, true)
  }

  function Provision(env: Env, p: Pair, driver: Driver, docs: map<Txt, Fields>): State {
    Play(env, p, driver, Fresh(docs), Script(p))
  }

  /** The calls that went through. */
  function Succeeded(ok: bool, made: nat): nat {
    if ok || made == 0 then made else made - 1
  }

  /** How many plan steps are complete when so many calls succeeded. */
  function StepsDone(succeeded: nat): nat {
    if succeeded < 10 then succeeded / 2 else if succeeded < 14 then 5 else 10
  }

  lemma {:induction false} PlayConcat(env: Env, p: Pair, driver: Driver, s: State, a: seq<Call>, b: seq<Call>)
    ensures Play(env, p, driver, s, a + b) == Play(env, p, driver, Play(env, p, driver, s, a), b)
    decreases |a|
  {
    if a == [] {
      assert a + b == b;
    } else if s.ok {
      assert (a + b)[1..] == a[1..] + b;
      PlayConcat(env, p, driver, Made(env, p, driver, s, a[0]), a[1..], b);
    }
  }

  /** The calls, step by step. */
  function StepCalls(p: Pair, i: nat): seq<Call> {
    var c, a := p.connector.id, p.acceptor.id;
    if i == 0 then [Confirm(a), Confirm(c)]
    else if i == 1 then [Pin(c, a), Pin(a, c)]
    else if i == 2 then [EnsureKey(c), EnsureKey(a)]
    else if i == 3 then [Authorize(c, a), Authorize(a, c)]
    else if i == 4 then [Probe(c, a), Probe(a, c)]
    else [StageHost(c), StageHost(a), ReadyHost(c), ReadyHost(a)]
  }

  /** The first i steps of the script. */
  function CallsBefore(p: Pair, i: nat): seq<Call> {
    if i == 0 then [] else CallsBefore(p, i - 1) + StepCalls(p, i - 1)
  }

  lemma ScriptIsSteps(p: Pair)
    ensures Script(p) == CallsBefore(p, 6)
  {
    assert CallsBefore(p, 1) == StepCalls(p, 0);
    assert CallsBefore(p, 2) == StepCalls(p, 0) + StepCalls(p, 1);
    assert CallsBefore(p, 3) == StepCalls(p, 0) + StepCalls(p, 1) + StepCalls(p, 2);
    assert CallsBefore(p, 4) == StepCalls(p, 0) + StepCalls(p, 1) + StepCalls(p, 2) + StepCalls(p, 3);
    assert CallsBefore(p, 5) == StepCalls(p, 0) + StepCalls(p, 1) + StepCalls(p, 2) + StepCalls(p, 3) + StepCalls(p, 4);
  }

  /** A run counts its calls, the failing one included. */
  lemma {:induction false} PlayCounts(env: Env, p: Pair, driver: Driver, s: State, calls: seq<Call>)
    requires s.ok
    ensures var out := Play(env, p, driver, s, calls);
      if out.ok then out.made == s.made + |calls| else s.made < out.made <= s.made + |calls|
    decreases |calls|
  {
    if calls != [] {
      MadeCounts(env, p, driver, s, calls[0]);
      if Made(env, p, driver, s, calls[0]).ok {
        PlayCounts(env, p, driver, Made(env, p, driver, s, calls[0]), calls[1..]);
      }
    }
  }

  lemma MadeCounts(env: Env, p: Pair, driver: Driver, s: State, call: Call)
    ensures Made(env, p, driver, s, call).made == s.made + 1
  {
  }

  /** The plan steps that step i of the script completes. */
  function StepsOf(i: nat): seq<Step>
    requires i < 6
  {
    if i < 5 then [PLAN_STEPS[i]] else PLAN_STEPS[5..]
  }

  lemma StepsAddUp(i: nat)
    requires i < 6
    ensures PLAN_STEPS[..StepsDone(2 * i)] + StepsOf(i) == PLAN_STEPS[..StepsDone(if i < 5 then 2 * i + 2 else 14)]
    ensures forall k :: 2 * i <= k < (if i < 5 then 2 * i + 2 else 14) ==> StepsDone(k) == StepsDone(2 * i)
  {
  }

  // ---- the executor's loops ----

  class Executor {
    var docs: map<Txt, Fields>
    var keys: map<Txt, KeyMaterial>
    var made: nat
    var completed: seq<Step>

    constructor (docs: map<Txt, Fields>)
      ensures AsState(true) == Fresh(docs) && completed == []
    {
      this.docs := docs;
      keys, made, completed := map[], 0, [];
    }

    function AsState(ok: bool): State
      reads this
    {
      State(docs, keys, made, ok)
    }

    method Invoke(env: Env, p: Pair, driver: Driver, call: Call) returns (ok: bool)
      modifies this
      ensures AsState(ok) == Made(env, p, driver, old(AsState(true)), call)
      ensures completed == old(completed)
    {
      var s := Made(env, p, driver, AsState(true), call);
      docs, keys, made := s.docs, s.keys, s.made;
      return s.ok;
    }

    /** One loop over the two directions or hosts; then the step is complete. */
    method Group(env: Env, p: Pair, driver: Driver, calls: seq<Call>, steps: seq<Step>) returns (ok: bool)
      modifies this
      ensures AsState(ok) == Play(env, p, driver, old(AsState(true)), calls)
      ensures completed == if ok then old(completed) + steps else old(completed)
    {
      ghost var start := AsState(true);
      for i := 0 to |calls|
        invariant AsState(true) == Play(env, p, driver, start, calls[..i])
        invariant completed == old(completed)
      {
        assert calls[..i + 1] == calls[..i] + [calls[i]];
        PlayConcat(env, p, driver, start, calls[..i], [calls[i]]);
        ok := Invoke(env, p, driver, calls[i]);
        if !ok {
          assert calls == calls[..i + 1] + calls[i + 1..];
          PlayConcat(env, p, driver, start, calls[..i + 1], calls[i + 1..]);
          return;
        }
      }
      assert calls[..|calls|] == calls;
      completed := completed + steps;
      return true;
    }

    /** The whole run: a step's calls all succeed before the next step starts. */
    method Run(env: Env, p: Pair, driver: Driver) returns (ok: bool)
      requires AsState(true) == Fresh(docs) && completed == []
      modifies this
      ensures AsState(ok) == Provision(env, p, driver, old(docs))
      ensures completed == PLAN_STEPS[..StepsDone(Succeeded(ok, made))]
    {
      ghost var start := AsState(true);
      ok := true;
      var i := 0;
      while i < 6 && ok
        invariant 0 <= i <= 6
        invariant AsState(ok) == Play(env, p, driver, start, CallsBefore(p, i))
        invariant ok ==> made == if i <= 5 then 2 * i else 14
        invariant completed == PLAN_STEPS[..StepsDone(Succeeded(ok, made))]
      {
        PlayConcat(env, p, driver, start, CallsBefore(p, i), StepCalls(p, i));
        PlayCounts(env, p, driver, AsState(true), StepCalls(p, i));
        StepsAddUp(i);
        ok := Group(env, p, driver, StepCalls(p, i), StepsOf(i));
        i := i + 1;
      }
      ScriptIsSteps(p);
      if !ok {
        FailureEnds(env, p, driver, start, i);
      }
    }
  }

  lemma {:induction false} FailureEnds(env: Env, p: Pair, driver: Driver, s: State, i: nat)
    requires i <= 6 && !Play(env, p, driver, s, CallsBefore(p, i)).ok
    ensures Play(env, p, driver, s, CallsBefore(p, 6)) == Play(env, p, driver, s, CallsBefore(p, i))
    decreases 6 - i
  {
    if i < 6 {
      PlayConcat(env, p, driver, s, CallsBefore(p, i), StepCalls(p, i));
      FailureEnds(env, p, driver, s, i + 1);
    }
  }
}
