/** Provisioning can be resumed: whatever call of the driver fails, both hosts are
    left with documents that the next run supports, and a run in which nothing
    fails completes the pair (internal/sshprovision/pair_executor.go,
    internal/sshprovision/regular_ssh_driver.go,
    internal/sshprovision/config_applicator.go). */
module Reruns {
  import opened Wrappers
  import opened Jsons
  import opened Configs
  import opened Documents
  import opened PeerEffects
  import opened Stores
  import opened Applicators
  import opened Progress
  import opened Resumption
  import opened Runs
  import opened Provisions
  import opened Admissions
  import opened Barriers

  /** Each host of the pair has a document from which its write can be applied:
      its peer for the other host is missing or in a state that staging starts
      from, a ready one holds valid proofs both ways, and no other peer dials the
      same target. */
  ghost predicate PairSupported(env: Env, p: Pair, docs: map<Txt, Fields>) {
    && p.connector.id in docs && p.acceptor.id in docs
    && SupportedStart(env, Reciprocal(p.connector, p.acceptor), docs[p.connector.id])
    && SupportedStart(env, Reciprocal(p.acceptor, p.connector), docs[p.acceptor.id])
  }

  /** Revisions left for a whole run on each host. */
  ghost predicate PairRoom(env: Env, p: Pair, docs: map<Txt, Fields>) {
    && p.connector.id in docs && p.acceptor.id in docs
    && Room(env, docs[p.connector.id], 5) && Room(env, docs[p.acceptor.id], 5)
  }

  /** No call fails, and the hosts have valid keys. */
  ghost predicate SmoothDriver(env: Env, p: Pair, driver: Driver) {
    && (forall k: nat :: Smooth(env, driver.world(k)) && SureAt(driver, k))
    && KeyOk(env, driver.keyOf(p.connector.id)) && KeyOk(env, driver.keyOf(p.acceptor.id))
  }

  predicate Ends(p: Pair, target: Host, peer: Host) {
    (target == p.connector && peer == p.acceptor) || (target == p.acceptor && peer == p.connector)
  }

  /** One call changes at most the document of its host, to a supported one. */
  lemma CallSupports(env: Env, p: Pair, target: Host, peer: Host, docs: map<Txt, Fields>, after: map<Txt, Fields>, raw: Fields)
    requires PairSupported(env, p, docs) && Ends(p, target, peer) && p.connector.id != p.acceptor.id
    requires after == docs || after == docs[target.id := raw]
    requires SupportedStart(env, Reciprocal(target, peer), raw)
    ensures PairSupported(env, p, after)
  {
  }

  // ---- staging ----

  lemma StageSupports(env: Env, p: Pair, driver: Driver, s: State, target: Host, peer: Host)
    requires env.WellFormed() && PairOk(env, p) && CalmDriver(env, driver) && GoodClock(env, driver) && KeysKnown(env, p, s)
    requires Ends(p, target, peer) && PairSupported(env, p, s.docs)
    ensures PairSupported(env, p, Made(env, p, driver, s, StageHost(target.id)).docs)
    ensures SmoothDriver(env, p, driver) && Room(env, s.docs[target.id], 5) ==>
      Made(env, p, driver, s, StageHost(target.id)).ok && Room(env, StageAt(env, p, driver, s, target.id).raw, 1)
  {
    var w, job := Reciprocal(target, peer), JobAt(p, driver, s.keys, target.id, s.made);
    StageCallIs(env, p, driver, s, target.id);
    WriteFor(env, p, target, peer, s, job.at, job.logID);
    assert Calm(env, driver.world(s.made));
    StageRun(env, driver.world(s.made), job, w, s.docs[target.id], 0);
    CallSupports(env, p, target, peer, s.docs, Made(env, p, driver, s, StageHost(target.id)).docs, StageAt(env, p, driver, s, target.id).raw);
    if SmoothDriver(env, p, driver) {
      assert Smooth(env, driver.world(s.made)) && SureAt(driver, s.made);
    }
  }

  // ---- readying what was staged ----

  /** The document is the one that staging left. */
  ghost predicate StagedIn(env: Env, p: Pair, driver: Driver, staged: State, later: State, host: Txt) {
    && host in staged.docs && host in later.docs && later.keys == staged.keys
    && StageAt(env, p, driver, staged, host).ok && later.docs[host] == StageAt(env, p, driver, staged, host).raw
  }

  lemma StagedReaches(env: Env, p: Pair, driver: Driver, s: State, later: State, target: Host, peer: Host, job: Job)
    requires env.WellFormed() && PairOk(env, p) && CalmDriver(env, driver) && GoodClock(env, driver) && KeysKnown(env, p, s)
    requires Ends(p, target, peer) && StagedIn(env, p, driver, s, later, target.id)
    requires job == JobAt(p, driver, later.keys, target.id, later.made).(at := driver.at(s.made))
    ensures PlanJob(env, job, Reciprocal(target, peer)) && Alone(job, Reciprocal(target, peer))
    ensures Reached(env, job, Reciprocal(target, peer), later.docs[target.id], 4)
  {
    var w, first := Reciprocal(target, peer), JobAt(p, driver, s.keys, target.id, s.made);
    WriteFor(env, p, target, peer, s, first.at, first.logID);
    WriteFor(env, p, target, peer, s, first.at, job.logID);
    assert Calm(env, driver.world(s.made));
    StageRun(env, driver.world(s.made), first, w, s.docs[target.id], 0);
  }

  lemma ReadySupports(env: Env, p: Pair, driver: Driver, s: State, later: State, target: Host, peer: Host)
    requires env.WellFormed() && PairOk(env, p) && CalmDriver(env, driver) && GoodClock(env, driver) && KeysKnown(env, p, s)
    requires Ends(p, target, peer) && StagedIn(env, p, driver, s, later, target.id) && PairSupported(env, p, later.docs)
    ensures PairSupported(env, p, Made(env, p, driver, later, ReadyHost(target.id)).docs)
    ensures SmoothDriver(env, p, driver) && Room(env, later.docs[target.id], 1) ==> Made(env, p, driver, later, ReadyHost(target.id)).ok
  {
    var w, raw := Reciprocal(target, peer), later.docs[target.id];
    var plain := JobAt(p, driver, later.keys, target.id, later.made);
    var job := plain.(at := driver.at(s.made));
    var world := driver.world(later.made);
    ReadyCallIs(env, p, driver, later, target.id);
    StagedReaches(env, p, driver, s, later, target, peer, job);
    assert Calm(env, world);
    ReadyIgnoresClock(env, world, plain, job.at, raw);
    SupportedStarts(env, w, raw);
    ReadyRun(env, world, job, w, raw, 0);
    var out := ReadyAt(env, p, driver, later, target.id).raw;
    assert out == ApplyReady(env, world, job, raw, 0).raw;
    SupportedStarts(env, w, out);
    CallSupports(env, p, target, peer, later.docs, Made(env, p, driver, later, ReadyHost(target.id)).docs, out);
    if SmoothDriver(env, p, driver) {
      assert Smooth(env, world) && SureAt(driver, later.made);
    }
  }

  // ---- the configuration calls ----

  /** The keys of the run, and documents it supports. */
  ghost predicate Configurable(env: Env, p: Pair, driver: Driver, s: State) {
    && env.WellFormed() && PairOk(env, p) && CalmDriver(env, driver) && GoodClock(env, driver)
    && KeysKnown(env, p, s) && PairSupported(env, p, s.docs)
  }

  /** Staging the connector and then the acceptor. */
  lemma BothStage(env: Env, p: Pair, driver: Driver, s: State, s1: State, s2: State)
    requires Configurable(env, p, driver, s)
    requires s1 == Made(env, p, driver, s, StageHost(p.connector.id)) && s2 == Made(env, p, driver, s1, StageHost(p.acceptor.id))
    ensures PairSupported(env, p, s1.docs) && PairSupported(env, p, s2.docs)
    ensures s1.ok && s2.ok ==> StagedIn(env, p, driver, s, s2, p.connector.id) && StagedIn(env, p, driver, s1, s2, p.acceptor.id)
    ensures s1.keys == s.keys && s2.keys == s.keys
    ensures SmoothDriver(env, p, driver) && PairRoom(env, p, s.docs) ==>
      s1.ok && s2.ok && Room(env, s2.docs[p.connector.id], 1) && Room(env, s2.docs[p.acceptor.id], 1)
  {
    StageCallIs(env, p, driver, s, p.connector.id);
    StageSupports(env, p, driver, s, p.connector, p.acceptor);
    StageCallIs(env, p, driver, s1, p.acceptor.id);
    StageSupports(env, p, driver, s1, p.acceptor, p.connector);
  }

  /** Readying the connector and then the acceptor. */
  lemma BothReady(env: Env, p: Pair, driver: Driver, s: State, s1: State, s2: State, s3: State, s4: State)
    requires Configurable(env, p, driver, s) && s1.keys == s.keys && PairSupported(env, p, s2.docs)
    requires StagedIn(env, p, driver, s, s2, p.connector.id) && StagedIn(env, p, driver, s1, s2, p.acceptor.id)
    requires s3 == Made(env, p, driver, s2, ReadyHost(p.connector.id)) && s4 == Made(env, p, driver, s3, ReadyHost(p.acceptor.id))
    ensures PairSupported(env, p, s3.docs) && (s3.ok ==> PairSupported(env, p, s4.docs))
    ensures SmoothDriver(env, p, driver) && Room(env, s2.docs[p.connector.id], 1) && Room(env, s2.docs[p.acceptor.id], 1) ==> s3.ok && s4.ok
  {
    ReadyCallIs(env, p, driver, s2, p.connector.id);
    ReadySupports(env, p, driver, s, s2, p.connector, p.acceptor);
    if s3.ok {
      assert StagedIn(env, p, driver, s1, s3, p.acceptor.id);
      ReadySupports(env, p, driver, s1, s3, p.acceptor, p.connector);
    }
  }

  /** The four calls up to the first failure. */
  lemma FourCallsTo(env: Env, p: Pair, driver: Driver, s: State, s1: State, s2: State, s3: State, s4: State)
    requires s.ok && s1 == Made(env, p, driver, s, StageHost(p.connector.id)) && s2 == Made(env, p, driver, s1, StageHost(p.acceptor.id))
    requires s3 == Made(env, p, driver, s2, ReadyHost(p.connector.id)) && s4 == Made(env, p, driver, s3, ReadyHost(p.acceptor.id))
    ensures Play(env, p, driver, s, StepCalls(p, 5)) == if !s1.ok then s1 else if !s2.ok then s2 else if !s3.ok then s3 else s4
  {
    var c, a := p.connector.id, p.acceptor.id;
    assert StepCalls(p, 5) == [StageHost(c)] + [StageHost(a), ReadyHost(c), ReadyHost(a)];
    PlayOne(env, p, driver, s, StageHost(c), [StageHost(a), ReadyHost(c), ReadyHost(a)]);
    if s1.ok {
      assert [StageHost(a), ReadyHost(c), ReadyHost(a)] == [StageHost(a)] + [ReadyHost(c), ReadyHost(a)];
      PlayOne(env, p, driver, s1, StageHost(a), [ReadyHost(c), ReadyHost(a)]);
      if s2.ok {
        assert [ReadyHost(c), ReadyHost(a)] == [ReadyHost(c)] + [ReadyHost(a)];
        PlayOne(env, p, driver, s2, ReadyHost(c), [ReadyHost(a)]);
        if s3.ok {
          assert [ReadyHost(a)] == [ReadyHost(a)] + [];
          PlayOne(env, p, driver, s3, ReadyHost(a), []);
        }
      }
    }
  }

  lemma ConfigCallsSupport(env: Env, p: Pair, driver: Driver, s: State)
    requires Configurable(env, p, driver, s) && s.ok
    ensures PairSupported(env, p, Play(env, p, driver, s, StepCalls(p, 5)).docs)
    ensures SmoothDriver(env, p, driver) && PairRoom(env, p, s.docs) ==> Play(env, p, driver, s, StepCalls(p, 5)).ok
  {
    var s1 := Made(env, p, driver, s, StageHost(p.connector.id));
    var s2 := Made(env, p, driver, s1, StageHost(p.acceptor.id));
    var s3 := Made(env, p, driver, s2, ReadyHost(p.connector.id));
    var s4 := Made(env, p, driver, s3, ReadyHost(p.acceptor.id));
    FourCallsTo(env, p, driver, s, s1, s2, s3, s4);
    BothStage(env, p, driver, s, s1, s2);
    if s1.ok && s2.ok {
      BothReady(env, p, driver, s, s1, s2, s3, s4);
    }
  }

  // ---- the calls before ----

  lemma {:induction false} SmoothCallsSucceed(env: Env, p: Pair, driver: Driver, s: State, calls: seq<Call>)
    requires SmoothDriver(env, p, driver) && s.ok
    requires forall i :: 0 <= i < |calls| ==> !WritesConfig(calls[i])
    requires forall i :: 0 <= i < |calls| && calls[i].EnsureKey? ==> calls[i].host == p.connector.id || calls[i].host == p.acceptor.id
    ensures Play(env, p, driver, s, calls).ok
    decreases |calls|
  {
    if calls != [] {
      assert SureAt(driver, s.made);
      assert Made(env, p, driver, s, calls[0]).ok;
      SmoothCallsSucceed(env, p, driver, Made(env, p, driver, s, calls[0]), calls[1..]);
    }
  }

  // ---- whole runs ----

  lemma ScriptSplits(p: Pair)
    ensures Script(p) == CallsBefore(p, 5) + StepCalls(p, 5)
    ensures forall i :: 0 <= i < |CallsBefore(p, 5)| ==> !WritesConfig(CallsBefore(p, 5)[i])
  {
    FirstCalls(p);
  }

  lemma ProvisionSplits(env: Env, p: Pair, driver: Driver, docs: map<Txt, Fields>) returns (s: State)
    requires PairOk(env, p)
    ensures s == Play(env, p, driver, Fresh(docs), CallsBefore(p, 5)) && s.docs == docs
    ensures s.ok ==> KeysKnown(env, p, s)
    ensures SmoothDriver(env, p, driver) ==> s.ok
    ensures Provision(env, p, driver, docs) == Play(env, p, driver, s, StepCalls(p, 5))
  {
    s := Play(env, p, driver, Fresh(docs), CallsBefore(p, 5));
    ScriptSplits(p);
    PlayConcat(env, p, driver, Fresh(docs), CallsBefore(p, 5), StepCalls(p, 5));
    OtherCallsKeepDocs(env, p, driver, Fresh(docs), CallsBefore(p, 5));
    KeysAfterProbes(env, p, driver, docs);
    if SmoothDriver(env, p, driver) {
      FirstCallsSucceed(env, p, driver, docs);
    }
  }

  lemma FirstCallsSucceed(env: Env, p: Pair, driver: Driver, docs: map<Txt, Fields>)
    requires SmoothDriver(env, p, driver)
    ensures Play(env, p, driver, Fresh(docs), CallsBefore(p, 5)).ok
  {
    FirstCalls(p);
    FirstTenCalls(p);
    SmoothCallsSucceed(env, p, driver, Fresh(docs), CallsBefore(p, 5));
  }

  /** Every state that a run leaves, whichever call fails, is supported: one host
      staged and the other untouched, one ready and the other staged, or any
      document that a remote apply broke off in. */
  lemma EveryRunLeavesSupported(env: Env, p: Pair, driver: Driver, docs: map<Txt, Fields>)
    requires env.WellFormed() && PairOk(env, p) && CalmDriver(env, driver) && GoodClock(env, driver)
    requires PairSupported(env, p, docs)
    ensures PairSupported(env, p, Provision(env, p, driver, docs).docs)
    ensures SmoothDriver(env, p, driver) && PairRoom(env, p, docs) ==> Provision(env, p, driver, docs).ok
  {
    var s := ProvisionSplits(env, p, driver, docs);
    if s.ok {
      ConfigCallsSupport(env, p, driver, s);
    }
  }

  /** A pair with the same two hosts; keys, paths and the shared key may differ. */
  predicate SameHosts(p: Pair, q: Pair) {
    p.connector == q.connector && p.acceptor == q.acceptor
  }

  /** One attempt after the other, however each ends. */
  function AfterRuns(env: Env, runs: seq<(Pair, Driver)>, docs: map<Txt, Fields>): map<Txt, Fields> {
    if runs == [] then docs
    else AfterRuns(env, runs[1..], Provision(env, runs[0].0, runs[0].1, docs).docs)
  }

  ghost predicate AttemptOn(env: Env, p: Pair, run: (Pair, Driver)) {
    SameHosts(p, run.0) && PairOk(env, run.0) && CalmDriver(env, run.1) && GoodClock(env, run.1)
  }

  lemma {:induction false} RunsLeaveSupported(env: Env, p: Pair, runs: seq<(Pair, Driver)>, docs: map<Txt, Fields>)
    requires env.WellFormed() && PairSupported(env, p, docs)
    requires forall i :: 0 <= i < |runs| ==> AttemptOn(env, p, runs[i])
    ensures PairSupported(env, p, AfterRuns(env, runs, docs))
    decreases |runs|
  {
    if runs != [] {
      assert AttemptOn(env, p, runs[0]);
      EveryRunLeavesSupported(env, runs[0].0, runs[0].1, docs);
      RunsLeaveSupported(env, p, runs[1..], Provision(env, runs[0].0, runs[0].1, docs).docs);
    }
  }

  /** Resumability: after any number of attempts, each failing at any call or not
      at all, a run in which nothing fails succeeds, and leaves the two hosts
      admitting each other with that run's key IDs. */
  lemma RerunCompletes(env: Env, p: Pair, driver: Driver, runs: seq<(Pair, Driver)>, docs: map<Txt, Fields>)
    requires env.WellFormed() && PairSupported(env, p, docs)
    requires forall i :: 0 <= i < |runs| ==> AttemptOn(env, p, runs[i])
    requires AttemptOn(env, p, (p, driver)) && SmoothDriver(env, p, driver)
    requires PairRoom(env, p, AfterRuns(env, runs, docs))
    ensures var c, a, out := p.connector.id, p.acceptor.id, Provision(env, p, driver, AfterRuns(env, runs, docs));
      && out.ok && c in out.docs && a in out.docs && Parse(env, out.docs[c]).Ok? && Parse(env, out.docs[a]).Ok?
      && StateIn(out.docs[c], a) == Known(Ready) && StateIn(out.docs[a], c) == Known(Ready)
      && Agrees(ConfigOf(env, out.docs[c]), a, driver.keyOf(c).keyID, driver.keyOf(a).keyID)
      && Agrees(ConfigOf(env, out.docs[a]), c, driver.keyOf(a).keyID, driver.keyOf(c).keyID)
  {
    var before := AfterRuns(env, runs, docs);
    RunsLeaveSupported(env, p, runs, docs);
    EveryRunLeavesSupported(env, p, driver, before);
    ProvisioningAgrees(env, p, driver, before);
    var out := Provision(env, p, driver, before).docs;
    AgreesIsReady(env, out[p.connector.id], p.acceptor.id);
    AgreesIsReady(env, out[p.acceptor.id], p.connector.id);
  }

  /** An end that is healthy is ready in the raw document too. */
  lemma AgreesIsReady(env: Env, raw: Fields, id: Txt)
    requires Parse(env, raw).Ok? && ConfigOf(env, raw).ssh.Some?
    requires EndHealthy(FirstPeer(ConfigOf(env, raw).ssh.value.peers, id))
    ensures StateIn(raw, id) == Known(Ready)
  {
    assert ConfigOf(env, raw).ssh.value.peers == PeerViews(PeersOf(raw));
    FirstPeerOfViews(PeersOf(raw), id);
  }
}
