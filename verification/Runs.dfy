/** Whole runs of the applicator on one host: partial runs leave supported
    documents, a rerun completes, and completion means the mutation's peer
    (internal/sshprovision/config_applicator.go). */
module Runs {
  import opened Wrappers
  import opened Jsons
  import opened Configs
  import opened Documents
  import Rewrites
  import opened PeerOps
  import opened PeerLists
  import opened PeerEffects
  import opened PeerTypedViews
  import opened Stores
  import opened Applicators
  import opened Progress
  import opened Resumption
  import Provenance

  /** No other writer; any call may still fail. */
  ghost predicate Calm(env: Env, world: World) {
    Real(env, world) && forall k: nat, raw: Fields :: world.noise(k, raw) == raw
  }

  /** No call fails either. */
  ghost predicate Smooth(env: Env, world: World) {
    Calm(env, world) && forall k: nat :: world.fault(k).NoFault?
  }

  function StateIn(raw: Fields, id: Txt): PeerState {
    if PeerAt(raw, id).None? then Missing else Known(StrAt(PeerAt(raw, id).value, MigrationState))
  }

  /** As long as no call failed, the run holds the document's revision and the
      peer's state, and has reached the level. */
  ghost predicate Tracks(env: Env, job: Job, w: Write, run: Run, level: nat)
    requires env.WellFormed() && PlanJob(env, job, w)
  {
    run.ok ==>
      && HasRevision(env, run.raw, run.rev) && run.rev > 0
      && Reached(env, job, w, run.raw, level)
      && StateOf(run, w) == StateIn(run.raw, w.peer)
  }

  /** What one write can do to a run. */
  lemma CalmSend(env: Env, world: World, run: Run, r: Request)
    requires Calm(env, world) && run.ok
    ensures var out, result := Send(env, world, run, r), Attempt(env, run.raw, r);
      && (out.raw == run.raw || (result.Ok? && out.raw == result.value))
      && (out.ok ==> result.Ok? && out.raw == result.value && HasRevision(env, out.raw, out.rev) && out.rev > 0)
      && out.states == run.states
      && (Smooth(env, world) && result.Ok? && RevisionOf(env, result.value).Some? && RevisionOf(env, result.value).value > 0 ==>
            out.ok && RevisionOf(env, result.value) == Some(out.rev))
  {
    SendOnce(env, world, run, r, Attempt(env, run.raw, r));
  }

  /** What one call does with the outcome of its operation. */
  lemma SendOnce(env: Env, world: World, run: Run, r: Request, result: Result<Fields>)
    requires run.ok && world.noise(run.calls, run.raw) == run.raw && world.ops(run.raw, r) == result
    ensures var out := Send(env, world, run, r);
      && (out.raw == run.raw || (result.Ok? && out.raw == result.value))
      && (out.ok ==> result.Ok? && out.raw == result.value && HasRevision(env, out.raw, out.rev) && out.rev > 0)
      && out.states == run.states
      && (world.fault(run.calls).NoFault? && result.Ok? && RevisionOf(env, result.value).Some? && RevisionOf(env, result.value).value > 0 ==>
            out.ok && RevisionOf(env, result.value) == Some(out.rev))
  {
  }

  // ---- the state of the peer after each operation ----

  lemma UpsertedStateIn(env: Env, w: Write, raw: Fields, rev: nat, f: UpsertFields)
    requires env.WellFormed() && RunPeerOp(env, raw, w.peer, rev, Upsert(f)).Ok?
    ensures var out := RunPeerOp(env, raw, w.peer, rev, Upsert(f)).value;
      StateIn(out, w.peer) == if PeerAt(raw, w.peer).None? then Known(Loopback) else StateIn(raw, w.peer)
    ensures PeerAt(raw, w.peer).None? ==> f.state == Some(Loopback)
  {
    PeerOpFrame(env, raw, w.peer, rev, Upsert(f));
    Provenance.PeerOpAdmitted(env, raw, w.peer, rev, Upsert(f));
    Provenance.UpsertedHistory(env, BaseOf(PeerAt(raw, w.peer), w.peer), f);
  }

  lemma UpsertKeepsSupportedPeer(env: Env, w: Write, raw: Fields, rev: nat, f: UpsertFields)
    requires env.WellFormed() && Supported(env, w, raw) && RunPeerOp(env, raw, w.peer, rev, Upsert(f)).Ok?
    ensures SupportedPeer(env, PeerAfter(env, PeerAt(raw, w.peer), w.peer, Upsert(f)))
  {
    var base := BaseOf(PeerAt(raw, w.peer), w.peer);
    Provenance.PeerOpAdmitted(env, raw, w.peer, rev, Upsert(f));
    Provenance.UpsertedHistory(env, base, f);
    UpsertedKeeps(env, base, f, Proof);
    assert ProofView(ObjAt(Upserted(env, base, f), Proof)) == ProofView(ObjAt(base, Proof));
  }

  lemma PatchedState(env: Env, before: Option<Fields>, id: Txt, accept: Option<ProofPatch>, connect: Option<ProofPatch>)
    ensures var after := PeerAfter(env, before, id, PatchProof(accept, connect));
      (after.Some? <==> before.Some?) && (after.Some? ==> StrAt(after.value, MigrationState) == StrAt(before.value, MigrationState))
  {
  }

  lemma PatchedStateIn(env: Env, w: Write, raw: Fields, rev: nat, accept: Option<ProofPatch>, connect: Option<ProofPatch>)
    requires env.WellFormed() && RunPeerOp(env, raw, w.peer, rev, PatchProof(accept, connect)).Ok?
    ensures StateIn(RunPeerOp(env, raw, w.peer, rev, PatchProof(accept, connect)).value, w.peer) == StateIn(raw, w.peer)
  {
    PeerOpFrame(env, raw, w.peer, rev, PatchProof(accept, connect));
    PatchedState(env, PeerAt(raw, w.peer), w.peer, accept, connect);
  }

  /** The goal proofs are valid. */
  lemma GoalProofOk(env: Env, job: Job, w: Write)
    requires env.WellFormed() && PlanJob(env, job, w)
    ensures AcceptProofOk(env, GoalProof(job, w)) && ConnectProofOk(env, GoalProof(job, w))
  {
  }

  lemma PatchedKeepsLog(peer: Fields, proof: Json)
    ensures ListOk(peer[Proof := proof], MigrationLog) == ListOk(peer, MigrationLog)
  {
  }

  lemma PatchedSupportedPeer(env: Env, job: Job, w: Write, peer: Fields, accept: ProofPatch, connect: ProofPatch)
    requires env.WellFormed() && PlanJob(env, job, w) && PeerTyped(peer) && SupportedPeer(env, Some(peer))
    requires Proved(accept, connect) == GoalProof(job, w)
    ensures SupportedPeer(env, Some(peer[Proof := Obj(PatchedProof(ObjAt(peer, Proof), Some(accept), Some(connect)))]))
  {
    var proof := Obj(PatchedProof(ObjAt(peer, Proof), Some(accept), Some(connect)));
    PatchedView(peer, accept, connect);
    PatchedKeepsLog(peer, proof);
    GoalProofOk(env, job, w);
    SupportedWith(env, peer[Proof := proof], PeerView(peer), GoalProof(job, w));
  }

  lemma SupportedWith(env: Env, peer: Fields, before: SSHPeer, proof: SSHProof)
    requires PeerView(peer) == before.(proof := proof) && ListOk(peer, MigrationLog)
    requires SupportedState(before.migrationState) && AcceptProofOk(env, proof) && ConnectProofOk(env, proof)
    ensures SupportedPeer(env, Some(peer))
  {
  }

  lemma PatchKeepsSupportedPeer(env: Env, job: Job, w: Write, raw: Fields, op: PeerOp)
    requires env.WellFormed() && PlanJob(env, job, w) && Supported(env, w, raw) && Reached(env, job, w, raw, 2)
    requires op == PatchProof(AcceptPatch(w, PeerKey(job, w), job.at), ConnectPatch(w, OwnKey(job, w), job.at))
    ensures SupportedPeer(env, PeerAfter(env, PeerAt(raw, w.peer), w.peer, op))
  {
    PatchedSupportedPeer(env, job, w, PeerAt(raw, w.peer).value, op.accept.value, op.connect.value);
  }

  lemma MoveKeepsSupportedPeer(env: Env, job: Job, w: Write, raw: Fields, m: Move)
    requires env.WellFormed() && PlanJob(env, job, w) && Reached(env, job, w, raw, 3) && PlanMove(job, m)
    ensures SupportedPeer(env, PeerAfter(env, PeerAt(raw, w.peer), w.peer, Transition(m)))
    ensures var after := PeerAfter(env, PeerAt(raw, w.peer), w.peer, Transition(m));
      after.Some? ==> PeerView(after.value).migrationState == m.next
  {
    var peer := PeerAt(raw, w.peer).value;
    if Moved(peer, m).Ok? {
      MovedSupportedPeer(env, job, w, peer, m, Moved(peer, m).value);
    }
  }

  lemma MovedSupportedPeer(env: Env, job: Job, w: Write, peer: Fields, m: Move, out: Fields)
    requires env.WellFormed() && PlanJob(env, job, w) && PlanMove(job, m) && Moved(peer, m) == Ok(out)
    requires PeerTyped(peer) && PeerView(peer).proof == GoalProof(job, w)
    ensures SupportedPeer(env, Some(out)) && PeerView(out).migrationState == m.next
  {
    MovedView(peer, m);
  }

  // ---- one write at a time ----

  /** What a successful write of this step leaves. */
  ghost predicate Advanced(env: Env, job: Job, w: Write, raw: Fields, out: Fields, rev: nat, level: nat, state: PeerState)
    requires env.WellFormed() && PlanJob(env, job, w)
  {
    && HasRevision(env, out, rev + 1)
    && Reached(env, job, w, out, level)
    && StateIn(out, w.peer) == state
    && (Supported(env, w, raw) ==> Supported(env, w, out))
  }

  /** The write succeeds on supported documents, and then advances them. */
  ghost predicate Advances(env: Env, job: Job, w: Write, raw: Fields, r: Request, rev: nat, level: nat, state: PeerState)
    requires env.WellFormed() && PlanJob(env, job, w)
  {
    var result := Attempt(env, raw, r);
    && (result.Ok? ==> Advanced(env, job, w, raw, result.value, rev, level, state))
    && (Supported(env, w, raw) && rev < MAX_UINT64 ==> result.Ok?)
  }

  lemma MaterialAdvances(env: Env, job: Job, w: Write, raw: Fields, rev: nat)
    requires env.WellFormed() && PlanJob(env, job, w) && HasRevision(env, raw, rev) && rev > 0
    ensures Advances(env, job, w, raw, ForMaterial(rev, JobMaterial(job)), rev, 1, StateIn(raw, w.peer))
  {
    if Supported(env, w, raw) && rev < MAX_UINT64 {
      MaterialSucceeds(env, job, w, raw, rev);
    }
    if RunMaterial(env, raw, rev, JobMaterial(job)).Ok? {
      MaterialAdvanced(env, job, w, raw, rev, RunMaterial(env, raw, rev, JobMaterial(job)).value);
    }
  }

  lemma MaterialAdvanced(env: Env, job: Job, w: Write, raw: Fields, rev: nat, out: Fields)
    requires env.WellFormed() && PlanJob(env, job, w) && RunMaterial(env, raw, rev, JobMaterial(job)) == Ok(out)
    ensures Advanced(env, job, w, raw, out, rev, 1, StateIn(raw, w.peer))
  {
    MaterialAchieves(env, job, w, raw, rev);
    MaterialReadsBack(env, raw, rev, JobMaterial(job));
    if Supported(env, w, raw) {
      MaterialKeepsSupported(env, w, raw, rev, JobMaterial(job));
    }
  }

  lemma UpsertAdvances(env: Env, job: Job, w: Write, raw: Fields, rev: nat)
    requires env.WellFormed() && PlanJob(env, job, w) && HasRevision(env, raw, rev) && rev > 0 && Reached(env, job, w, raw, 1)
    ensures var f := FieldsFor(w, PeerAt(raw, w.peer).Some?);
      Advances(env, job, w, raw, ForPeer(w.peer, rev, Upsert(f)), rev, 2,
               if PeerAt(raw, w.peer).None? then Known(Loopback) else StateIn(raw, w.peer))
  {
    var known := PeerAt(raw, w.peer).Some?;
    var f := FieldsFor(w, known);
    if Supported(env, w, raw) && rev < MAX_UINT64 {
      UpsertSucceeds(env, job, w, raw, rev);
    }
    if RunPeerOp(env, raw, w.peer, rev, Upsert(f)).Ok? {
      UpsertAchieves(env, job, w, raw, rev, known);
      UpsertedStateIn(env, w, raw, rev, f);
      PeerOpKeepsMaterial(env, job, raw, w.peer, rev, Upsert(f));
      if Supported(env, w, raw) {
        UpsertKeepsSupportedPeer(env, w, raw, rev, f);
        PeerOpKeepsSupported(env, w, raw, rev, Upsert(f));
      }
    }
  }

  function ProofOp(job: Job, w: Write): PeerOp
    requires SyncKeyFor(job.m, w.peer).Some? && SyncKeyFor(job.m, w.target).Some?
  {
    PatchProof(AcceptPatch(w, PeerKey(job, w), job.at), ConnectPatch(w, OwnKey(job, w), job.at))
  }

  lemma ProofsAdvance(env: Env, job: Job, w: Write, raw: Fields, rev: nat, op: PeerOp)
    requires env.WellFormed() && PlanJob(env, job, w) && HasRevision(env, raw, rev) && rev > 0 && Reached(env, job, w, raw, 2)
    requires op == ProofOp(job, w)
    ensures Advances(env, job, w, raw, ForPeer(w.peer, rev, op), rev, 3, StateIn(raw, w.peer))
  {
    if Supported(env, w, raw) && rev < MAX_UINT64 {
      ProofsSucceed(env, job, w, raw, rev, op);
    }
    if RunPeerOp(env, raw, w.peer, rev, op).Ok? {
      ProofsAdvanced(env, job, w, raw, RunPeerOp(env, raw, w.peer, rev, op).value, rev, op);
    }
  }

  lemma ProofsAdvanced(env: Env, job: Job, w: Write, raw: Fields, out: Fields, rev: nat, op: PeerOp)
    requires env.WellFormed() && PlanJob(env, job, w) && Reached(env, job, w, raw, 2)
    requires op == ProofOp(job, w) && RunPeerOp(env, raw, w.peer, rev, op) == Ok(out)
    ensures Advanced(env, job, w, raw, out, rev, 3, StateIn(raw, w.peer))
  {
    ProofsAchieve(env, job, w, raw, rev, op);
    PatchedStateIn(env, w, raw, rev, op.accept, op.connect);
    PeerOpKeepsMaterial(env, job, raw, w.peer, rev, op);
    if Supported(env, w, raw) {
      PatchKeepsSupportedPeer(env, job, w, raw, op);
      PeerOpKeepsSupported(env, w, raw, rev, op);
    }
  }

  lemma MoveAdvances(env: Env, job: Job, w: Write, raw: Fields, rev: nat, m: Move, level: nat)
    requires env.WellFormed() && PlanJob(env, job, w) && HasRevision(env, raw, rev) && rev > 0 && Reached(env, job, w, raw, 3)
    requires PlanMove(job, m) && StateIn(raw, w.peer) == Known(m.from)
    requires (level == 4 && m.next.Staged?) || (level == 5 && m.next.Ready?)
    ensures Advances(env, job, w, raw, ForPeer(w.peer, rev, Transition(m)), rev, level, Known(m.next))
  {
    if Supported(env, w, raw) && rev < MAX_UINT64 {
      MoveSucceeds(env, job, w, raw, rev, m);
    }
    if RunPeerOp(env, raw, w.peer, rev, Transition(m)).Ok? {
      MoveKeepsSupportedPeer(env, job, w, raw, m);
      MoveAchieves(env, job, w, raw, rev, m, level);
      PeerOpFrame(env, raw, w.peer, rev, Transition(m));
      PeerOpKeepsMaterial(env, job, raw, w.peer, rev, Transition(m));
      if Supported(env, w, raw) {
        PeerOpKeepsSupported(env, w, raw, rev, Transition(m));
      }
    }
  }

  // ---- the steps of a run ----

  /** What some steps make of a run: they reach the level unless a call failed,
      keep supported documents supported, and go through when nothing fails,
      using at most so many revisions. */
  ghost predicate StepsWithin(env: Env, world: World, job: Job, w: Write, run: Run, out: Run, level: nat, writes: nat)
    requires env.WellFormed() && PlanJob(env, job, w)
  {
    && Tracks(env, job, w, out, level)
    && (Supported(env, w, run.raw) ==> Supported(env, w, out.raw))
    && (Smooth(env, world) && run.ok && Supported(env, w, run.raw) && run.rev + writes <= MAX_UINT64 ==> out.ok && out.rev <= run.rev + writes)
  }

  ghost predicate StepsTo(env: Env, world: World, job: Job, w: Write, run: Run, out: Run, level: nat)
    requires env.WellFormed() && PlanJob(env, job, w)
  {
    StepsWithin(env, world, job, w, run, out, level, 1)
  }

  lemma Then(env: Env, world: World, job: Job, w: Write, run: Run, mid: Run, out: Run, level1: nat, level2: nat, n1: nat, n2: nat)
    requires env.WellFormed() && PlanJob(env, job, w)
    requires StepsWithin(env, world, job, w, run, mid, level1, n1)
    requires mid.ok ==> StepsWithin(env, world, job, w, mid, out, level2, n2)
    requires !mid.ok ==> out == mid
    ensures StepsWithin(env, world, job, w, run, out, level2, n1 + n2)
  {
  }

  /** Sending such a write and noting the state. */
  lemma SendSteps(env: Env, world: World, job: Job, w: Write, run: Run, r: Request, level: nat, state: PeerState, out: Run)
    requires env.WellFormed() && Calm(env, world) && PlanJob(env, job, w) && run.ok
    requires Advances(env, job, w, run.raw, r, run.rev, level, state)
    requires var sent := Send(env, world, run, r);
      if sent.ok then out == sent.(states := out.states) && StateOf(out, w) == state else out == sent
    ensures StepsTo(env, world, job, w, run, out, level)
  {
    CalmSend(env, world, run, r);
  }

  lemma MaterialSteps(env: Env, world: World, job: Job, w: Write, run: Run)
    requires env.WellFormed() && Calm(env, world) && PlanJob(env, job, w) && Tracks(env, job, w, run, 0)
    ensures StepsTo(env, world, job, w, run, SendMaterial(env, world, job, run), 1)
  {
    if run.ok {
      var r := ForMaterial(run.rev, JobMaterial(job));
      MaterialAdvances(env, job, w, run.raw, run.rev);
      SendMaterialIs(env, world, job, run);
      MaterialKeepsStates(env, world, job, run);
      SendSteps(env, world, job, w, run, r, 1, StateIn(run.raw, w.peer), SendMaterial(env, world, job, run));
    }
  }

  lemma UpsertSteps(env: Env, world: World, job: Job, w: Write, run: Run)
    requires env.WellFormed() && Calm(env, world) && PlanJob(env, job, w) && Tracks(env, job, w, run, 1) && run.ok
    ensures StepsTo(env, world, job, w, run, UpsertStep(env, world, run, w), 2)
  {
    var r := ForPeer(w.peer, run.rev, Upsert(FieldsFor(w, StateOf(run, w).Known?)));
    UpsertAdvances(env, job, w, run.raw, run.rev);
    CalmSend(env, world, run, r);
    SendSteps(env, world, job, w, run, r, 2, if StateOf(run, w).Missing? then Known(Loopback) else StateOf(run, w), UpsertStep(env, world, run, w));
  }

  lemma ProofSteps(env: Env, world: World, job: Job, w: Write, run: Run)
    requires env.WellFormed() && Calm(env, world) && PlanJob(env, job, w) && Tracks(env, job, w, run, 2) && run.ok
    ensures StepsTo(env, world, job, w, run, ProofStep(env, world, job, run, w), 3)
  {
    var r := ForPeer(w.peer, run.rev, ProofOp(job, w));
    ProofsAdvance(env, job, w, run.raw, run.rev, ProofOp(job, w));
    CalmSend(env, world, run, r);
    assert ProofStep(env, world, job, run, w) == Send(env, world, run, r);
    SendSteps(env, world, job, w, run, r, 3, StateOf(run, w), Send(env, world, run, r));
  }

  lemma MoveSteps(env: Env, world: World, job: Job, w: Write, run: Run, from: Txt, next: Txt, reason: Txt, level: nat)
    requires env.WellFormed() && Calm(env, world) && PlanJob(env, job, w) && Tracks(env, job, w, run, 3) && run.ok
    requires PlanMove(job, Move(from, next, reason, job.logID, None, None)) && StateOf(run, w) == Known(from)
    requires (level == 4 && next.Staged?) || (level == 5 && next.Ready?)
    ensures StepsTo(env, world, job, w, run, MoveTo(env, world, job, run, w, from, next, reason), level)
  {
    var m := Move(from, next, reason, job.logID, None, None);
    MoveAdvances(env, job, w, run.raw, run.rev, m, level);
    CalmSend(env, world, run, ForPeer(w.peer, run.rev, Transition(m)));
    SendSteps(env, world, job, w, run, ForPeer(w.peer, run.rev, Transition(m)), level, Known(next), MoveTo(env, world, job, run, w, from, next, reason));
  }

  lemma StageSteps(env: Env, world: World, job: Job, w: Write, run: Run)
    requires env.WellFormed() && Calm(env, world) && PlanJob(env, job, w) && Tracks(env, job, w, run, 3) && run.ok
    requires StateOf(run, w).Known? && SupportedState(StateOf(run, w).state)
    ensures StepsTo(env, world, job, w, run, StageStep(env, world, job, run, w), 4)
  {
    var from := StateOf(run, w).state;
    if from.Loopback? || from.Failed? {
      MoveSteps(env, world, job, w, run, from, Staged, StageReason(from), 4);
      assert StageStep(env, world, job, run, w) == MoveTo(env, world, job, run, w, from, Staged, StageReason(from));
    } else {
      assert StageStep(env, world, job, run, w) == run;
    }
  }

  lemma ReadySteps(env: Env, world: World, job: Job, w: Write, run: Run)
    requires env.WellFormed() && Calm(env, world) && PlanJob(env, job, w) && Tracks(env, job, w, run, 4) && run.ok
    ensures StepsTo(env, world, job, w, run, ReadyStep(env, world, job, run, w), 5)
  {
    if StateOf(run, w).state.Staged? {
      MoveSteps(env, world, job, w, run, Staged, Ready, SSHMaterialVerified, 5);
    }
  }

  // ---- passes over a plan's writes: one of them is for this host ----

  predicate Alone(job: Job, w: Write) {
    exists j :: 0 <= j < |job.m.writes| && job.m.writes[j] == w && forall k :: 0 <= k < |job.m.writes| && k != j ==> job.m.writes[k].target != job.host
  }

  lemma {:induction false} PassIsStep(env: Env, world: World, job: Job, phase: Phase, run: Run, w: Write, j: nat, n: nat)
    requires j < |job.m.writes| && job.m.writes[j] == w && n <= |job.m.writes|
    requires forall k :: 0 <= k < |job.m.writes| && k != j ==> job.m.writes[k].target != job.host
    ensures Pass(env, world, job, phase, run, n) == if n <= j then run else StepOf(env, world, job, phase, run, w)
  {
    if n > 0 {
      PassIsStep(env, world, job, phase, run, w, j, n - 1);
    }
  }

  lemma FullPassIsStep(env: Env, world: World, job: Job, w: Write, phase: Phase, run: Run)
    requires Alone(job, w)
    ensures FullPass(env, world, job, phase, run) == StepOf(env, world, job, phase, run, w)
  {
    var j :| 0 <= j < |job.m.writes| && job.m.writes[j] == w && forall k :: 0 <= k < |job.m.writes| && k != j ==> job.m.writes[k].target != job.host;
    PassIsStep(env, world, job, phase, run, w, j, |job.m.writes|);
  }

  lemma ReadPass(env: Env, world: World, job: Job, w: Write, run: Run)
    requires Alone(job, w) && w.target == job.host
    ensures FullPass(env, world, job, Reading, run) == if run.ok then ReadPeerState(env, world, run, w) else run
  {
    FullPassIsStep(env, world, job, w, Reading, run);
  }

  lemma UpsertPass(env: Env, world: World, job: Job, w: Write, run: Run)
    requires Alone(job, w) && w.target == job.host
    ensures FullPass(env, world, job, Upserting, run) == if run.ok then UpsertStep(env, world, run, w) else run
  {
    FullPassIsStep(env, world, job, w, Upserting, run);
  }

  lemma ProofPass(env: Env, world: World, job: Job, w: Write, run: Run)
    requires Alone(job, w) && w.target == job.host
    ensures FullPass(env, world, job, Proving, run) == if run.ok then ProofStep(env, world, job, run, w) else run
  {
    FullPassIsStep(env, world, job, w, Proving, run);
  }

  lemma StagePass(env: Env, world: World, job: Job, w: Write, run: Run)
    requires Alone(job, w) && w.target == job.host
    ensures FullPass(env, world, job, Staging, run) == if run.ok then StageStep(env, world, job, run, w) else run
  {
    FullPassIsStep(env, world, job, w, Staging, run);
  }

  lemma ReadyPass(env: Env, world: World, job: Job, w: Write, run: Run)
    requires Alone(job, w) && w.target == job.host
    ensures FullPass(env, world, job, Readying, run) == if run.ok then ReadyStep(env, world, job, run, w) else run
  {
    FullPassIsStep(env, world, job, w, Readying, run);
  }

  // ---- the start of a run ----

  /** The revision is held, nothing is known of the peer yet. */
  ghost predicate Begun(env: Env, run: Run) {
    run.ok ==> HasRevision(env, run.raw, run.rev) && run.rev > 0 && run.states == map[]
  }

  lemma ReadingTracks(env: Env, world: World, job: Job, w: Write, run: Run, level: nat)
    requires env.WellFormed() && Calm(env, world) && PlanJob(env, job, w) && Begun(env, run) && run.ok
    requires Reached(env, job, w, run.raw, level)
    ensures var out := ReadPeerState(env, world, run, w);
      && Tracks(env, job, w, out, level) && out.raw == run.raw && out.rev == run.rev
      && (Smooth(env, world) ==> out.ok)
  {
    ReadFinds(env, w, run.raw);
    ReadPeerIs(env, world, w, run);
    var out := ReadPeerState(env, world, run, w);
    if out.ok {
      assert StateOf(out, w) == StateIn(out.raw, w.peer);
    }
  }

  lemma ReadPeerIs(env: Env, world: World, w: Write, run: Run)
    requires Calm(env, world) && run.ok && run.states == map[] && Parse(env, run.raw).Ok? && env.hostIDOk(w.peer)
    requires Find(env, PeersOf(run.raw), w.peer).Ok?
    requires StateIn(run.raw, w.peer) == match Find(env, PeersOf(run.raw), w.peer).value
                                         case None => Missing
                                         case Some(i) => Known(StrAt(PeersOf(run.raw)[i], MigrationState))
    ensures var out := ReadPeerState(env, world, run, w);
      && out.raw == run.raw && out.rev == run.rev
      && (out.ok ==> out.states == map[w.peer := StateIn(run.raw, w.peer)])
      && (Smooth(env, world) ==> out.ok)
  {
    assert world.noise(run.calls, run.raw) == run.raw;
  }

  lemma ReadFinds(env: Env, w: Write, raw: Fields)
    requires Parse(env, raw).Ok? && Parse(env, raw).value.revision.Some?
    ensures Find(env, PeersOf(raw), w.peer).Ok? ==>
      StateIn(raw, w.peer) == match Find(env, PeersOf(raw), w.peer).value
                              case None => Missing
                              case Some(i) => Known(StrAt(PeersOf(raw)[i], MigrationState))
    ensures Find(env, PeersOf(raw), w.peer).Ok?
  {
    VersionedHasRevision(env, raw);
    ParsedPeers(env, raw);
    FindFromIsExact(env, PeersOf(raw), w.peer, 0);
    Provenance.FoundPeer(env, PeersOf(raw), w.peer);
  }

  /** The first half of a stage: the material, with a peer that can be staged. */
  lemma FirstPartSteps(env: Env, world: World, job: Job, w: Write, run: Run)
    requires env.WellFormed() && Calm(env, world) && PlanJob(env, job, w) && Alone(job, w) && Begun(env, run)
    requires run.ok
    ensures var out := FirstPart(env, world, job, run);
      && StepsTo(env, world, job, w, run, out, 1)
      && (out.ok ==> StateOf(out, w).Known? ==> SupportedState(StateOf(out, w).state))
  {
    var checked := CheckedTracks(env, world, job, w, run);
    MaterialSteps(env, world, job, w, checked);
    MaterialKeepsStates(env, world, job, checked);
  }

  /** The peers' states were read, and are ones that staging starts from. */
  lemma CheckedTracks(env: Env, world: World, job: Job, w: Write, run: Run) returns (checked: Run)
    requires env.WellFormed() && Calm(env, world) && PlanJob(env, job, w) && Alone(job, w) && Begun(env, run)
    requires run.ok
    ensures FirstPart(env, world, job, run) == SendMaterial(env, world, job, checked)
    ensures Tracks(env, job, w, checked, 0) && checked.raw == run.raw && checked.rev == run.rev
    ensures checked.ok ==> StateOf(checked, w).Known? ==> SupportedState(StateOf(checked, w).state)
    ensures Smooth(env, world) && Supported(env, w, run.raw) ==> checked.ok
  {
    var read := StepOf(env, world, job, Reading, run, w);
    checked := StepOf(env, world, job, Checking, read, w);
    FirstPartIs(env, world, job, w, run);
    ReadingTracks(env, world, job, w, run, 0);
    CheckingTracks(env, world, job, w, read);
  }

  lemma FirstPartIs(env: Env, world: World, job: Job, w: Write, run: Run)
    requires Alone(job, w)
    ensures var read := StepOf(env, world, job, Reading, run, w);
      FirstPart(env, world, job, run) == SendMaterial(env, world, job, StepOf(env, world, job, Checking, read, w))
  {
    FullPassIsStep(env, world, job, w, Reading, run);
    FullPassIsStep(env, world, job, w, Checking, StepOf(env, world, job, Reading, run, w));
  }

  lemma CheckingTracks(env: Env, world: World, job: Job, w: Write, read: Run)
    requires env.WellFormed() && PlanJob(env, job, w) && Tracks(env, job, w, read, 0)
    ensures var out := StepOf(env, world, job, Checking, read, w);
      && Tracks(env, job, w, out, 0) && out.raw == read.raw && out.rev == read.rev
      && (out.ok ==> StateOf(out, w).Known? ==> SupportedState(StateOf(out, w).state))
      && (read.ok && Supported(env, w, read.raw) ==> out.ok)
  {
    if read.ok && Supported(env, w, read.raw) {
      assert StateIn(read.raw, w.peer).Known? ==> SupportedState(StateIn(read.raw, w.peer).state);
    }
  }

  lemma MaterialKeepsStates(env: Env, world: World, job: Job, run: Run)
    ensures SendMaterial(env, world, job, run).states == run.states
    ensures !run.ok ==> SendMaterial(env, world, job, run) == run
  {
  }

  /** The second half of a stage, for the one write. */
  function ThreeSteps(env: Env, world: World, job: Job, run: Run, w: Write): Run {
    var upserted := UpsertStep(env, world, run, w);
    var proved := if upserted.ok then ProofStep(env, world, job, upserted, w) else upserted;
    if proved.ok then StageStep(env, world, job, proved, w) else proved
  }

  lemma SecondPartIs(env: Env, world: World, job: Job, w: Write, run: Run)
    requires Alone(job, w) && w.target == job.host && run.ok
    ensures SecondPart(env, world, job, run) == ThreeSteps(env, world, job, run, w)
  {
    var upserted := FullPass(env, world, job, Upserting, run);
    UpsertPass(env, world, job, w, run);
    var proved := FullPass(env, world, job, Proving, upserted);
    ProofPass(env, world, job, w, upserted);
    StagePass(env, world, job, w, proved);
  }

  /** The second half: the peer, its proofs, and the staged state. */
  lemma ThreeStepsWithin(env: Env, world: World, job: Job, w: Write, run: Run)
    requires env.WellFormed() && Calm(env, world) && PlanJob(env, job, w)
    requires run.ok && Tracks(env, job, w, run, 1)
    requires StateOf(run, w).Known? ==> SupportedState(StateOf(run, w).state)
    ensures StepsWithin(env, world, job, w, run, ThreeSteps(env, world, job, run, w), 4, 3)
  {
    var upserted := UpsertStep(env, world, run, w);
    UpsertSteps(env, world, job, w, run);
    UpsertState(env, world, run, w);
    var out := ThreeSteps(env, world, job, run, w);
    if upserted.ok {
      ProofThenStage(env, world, job, w, upserted, ProofStep(env, world, job, upserted, w), out);
    }
    Then(env, world, job, w, run, upserted, out, 2, 4, 1, 2);
  }

  lemma SecondPartSteps(env: Env, world: World, job: Job, w: Write, run: Run)
    requires env.WellFormed() && Calm(env, world) && PlanJob(env, job, w) && Alone(job, w)
    requires run.ok && Tracks(env, job, w, run, 1)
    requires StateOf(run, w).Known? ==> SupportedState(StateOf(run, w).state)
    ensures StepsWithin(env, world, job, w, run, SecondPart(env, world, job, run), 4, 3)
  {
    SecondPartIs(env, world, job, w, run);
    ThreeStepsWithin(env, world, job, w, run);
  }

  lemma ProofThenStage(env: Env, world: World, job: Job, w: Write, upserted: Run, proved: Run, staged: Run)
    requires env.WellFormed() && Calm(env, world) && PlanJob(env, job, w)
    requires upserted.ok && Tracks(env, job, w, upserted, 2)
    requires StateOf(upserted, w).Known? && SupportedState(StateOf(upserted, w).state)
    requires proved == ProofStep(env, world, job, upserted, w)
    requires staged == if proved.ok then StageStep(env, world, job, proved, w) else proved
    ensures StepsWithin(env, world, job, w, upserted, staged, 4, 2)
  {
    ProofSteps(env, world, job, w, upserted);
    ProofState(env, world, job, upserted, w);
    if proved.ok {
      StageSteps(env, world, job, w, proved);
    }
    Then(env, world, job, w, upserted, proved, staged, 3, 4, 1, 1);
  }

  lemma UpsertState(env: Env, world: World, run: Run, w: Write)
    requires w.state == Loopback
    ensures UpsertStep(env, world, run, w).ok ==>
      StateOf(UpsertStep(env, world, run, w), w) == if StateOf(run, w).Known? then StateOf(run, w) else Known(Loopback)
  {
  }

  lemma ProofState(env: Env, world: World, job: Job, run: Run, w: Write)
    ensures ProofStep(env, world, job, run, w).states == run.states
  {
  }

  /** A whole stage from a revision just read. */
  lemma StagePartSteps(env: Env, world: World, job: Job, w: Write, run: Run)
    requires env.WellFormed() && Calm(env, world) && PlanJob(env, job, w) && Alone(job, w) && Begun(env, run) && run.ok
    ensures StepsWithin(env, world, job, w, run, StagePart(env, world, job, run), 4, 4)
  {
    FirstPartSteps(env, world, job, w, run);
    var first := FirstPart(env, world, job, run);
    if first.ok {
      SecondPartSteps(env, world, job, w, first);
    } else {
      SecondPartOfFailed(env, world, job, first);
    }
    Then(env, world, job, w, run, first, SecondPart(env, world, job, first), 1, 4, 1, 3);
  }

  lemma SecondPartOfFailed(env: Env, world: World, job: Job, run: Run)
    requires !run.ok
    ensures SecondPart(env, world, job, run) == run
  {
    FailedRunsStay(env, world, job);
  }

  // ---- documents without a revision ----

  /** Supported, with or without a revision: the first write validates the
      document as it stands. */
  ghost predicate SupportedStart(env: Env, w: Write, raw: Fields) {
    && Parse(env, raw).Ok?
    && var cfg := Normalize(env, ConfigOf(env, raw));
       && cfg.Ok? && TransportOk(env, cfg.value) && SupportedConfig(env, w, cfg.value)
       && SupportedPeer(env, PeerAt(raw, w.peer))
       && TargetFree(env, w, Others(PeersOf(raw), w.peer))
  }

  /** The same view of one peer, and the same views of the others. */
  ghost predicate SamePeer(a: seq<Fields>, b: seq<Fields>, id: Txt) {
    && (PeerIn(a, id).Some? <==> PeerIn(b, id).Some?)
    && (PeerIn(a, id).Some? ==> PeerView(PeerIn(a, id).value) == PeerView(PeerIn(b, id).value))
    && (PeerIn(b, id).Some? ==> PeerIn(b, id).value in b)
    && PeerViews(Others(a, id)) == PeerViews(Others(b, id))
  }

  lemma {:induction false} SameViewsSamePeer(a: seq<Fields>, b: seq<Fields>, id: Txt)
    requires PeerViews(a) == PeerViews(b)
    ensures SamePeer(a, b, id)
  {
    assert |PeerViews(a)| == |a| && |PeerViews(b)| == |b|;
    if a != [] {
      assert PeerViews(a)[0] == PeerView(a[0]) && PeerViews(b)[0] == PeerView(b[0]);
      assert PeerViews(a[1..]) == PeerViews(a)[1..] && PeerViews(b[1..]) == PeerViews(b)[1..];
      SameViewsSamePeer(a[1..], b[1..], id);
      SamePeerCons(a[0], a[1..], b[0], b[1..], id);
      assert a == [a[0]] + a[1..] && b == [b[0]] + b[1..];
    }
  }

  lemma SamePeerCons(x: Fields, a: seq<Fields>, y: Fields, b: seq<Fields>, id: Txt)
    requires PeerView(x) == PeerView(y) && SamePeer(a, b, id)
    ensures SamePeer([x] + a, [y] + b, id)
  {
    assert StrAt(x, Id) == PeerView(x).id && StrAt(y, Id) == PeerView(y).id;
    ConsPeer(x, a, id);
    ConsPeer(y, b, id);
  }

  lemma ConsPeer(x: Fields, rest: seq<Fields>, id: Txt)
    ensures PeerIn([x] + rest, id) == if StrAt(x, Id) == id then Some(x) else PeerIn(rest, id)
    ensures PeerViews(Others([x] + rest, id)) == (if StrAt(x, Id) == id then [] else [PeerView(x)]) + PeerViews(Others(rest, id))
  {
    assert ([x] + rest)[1..] == rest;
    ViewsOfCons(x, Others(rest, id));
    assert [] + Others(rest, id) == Others(rest, id) && [] + PeerViews(Others(rest, id)) == PeerViews(Others(rest, id));
  }

  lemma ViewsOfCons(peer: Fields, rest: seq<Fields>)
    ensures PeerViews([peer] + rest) == [PeerView(peer)] + PeerViews(rest)
  {
  }

  lemma SameViewsTargetFree(env: Env, w: Write, a: seq<Fields>, b: seq<Fields>)
    requires PeerViews(a) == PeerViews(b) && TargetFree(env, w, a)
    ensures TargetFree(env, w, b)
  {
    forall i | 0 <= i < |b|
      ensures !(Dials(true, PeerView(b[i])) && TargetOf(env, PeerView(b[i])) == WrittenTarget(env, w))
    {
      assert |PeerViews(a)| == |a| && PeerViews(b)[i] == PeerView(b[i]) && PeerViews(a)[i] == PeerView(a[i]);
    }
  }

  /** On documents with a revision the two notions agree. */
  lemma SupportedStarts(env: Env, w: Write, raw: Fields)
    requires env.WellFormed() && Parse(env, raw).Ok? && Parse(env, raw).value.revision.Some?
    ensures SupportedStart(env, w, raw) <==> Supported(env, w, raw)
  {
    VersionedHasRevision(env, raw);
    ParsedReadsAs(env, raw);
    var cfg := ConfigOf(env, raw);
    if cfg.ssh.Some? {
      NormalizedIsStable(env, cfg.ssh.value);
    }
  }

  function FirstWrite(doc: Document): Expectation {
    Expectation(doc.state, None)
  }

  lemma EnsureWrites(env: Env, raw: Fields)
    requires env.WellFormed() && Parse(env, raw).Ok? && Parse(env, raw).value.revision.None?
    ensures var doc := Parse(env, raw).value;
      var result, cfg := UpdateScoped(env, raw, FirstWrite(doc), KeepConfig), Normalize(env, doc.config);
      && (result.Ok? <==> cfg.Ok? && TransportOk(env, cfg.value))
      && (result.Ok? ==> result.value == MarshalTyped(doc, cfg.value, 1)
                         && Parse(env, result.value) == Ok(Document(cfg.value, Versioned, Some(1), result.value)))
  {
    var doc := Parse(env, raw).value;
    VersionedHasRevision(env, raw);
    if UpdateScoped(env, raw, FirstWrite(doc), KeepConfig).Ok? {
      ScopedReadsBack(env, raw, FirstWrite(doc), KeepConfig);
    }
  }

  /** The typed peers of any parsed document are its raw ones, decoded. */
  lemma RawPeersDecode(env: Env, raw: Fields)
    requires Parse(env, raw).Ok? && Normalize(env, ConfigOf(env, raw)).Ok?
    ensures var ssh := Normalize(env, ConfigOf(env, raw)).value.ssh;
      PeerViews(PeersOf(raw)) == if ssh.Some? then ssh.value.peers else []
  {
    assert PeerViews([]) == [];
  }

  /** The first write keeps the peer list, or encodes it afresh. */
  lemma EnsuredPeers(env: Env, doc: Document, cfg: Config)
    requires env.WellFormed() && Parse(env, doc.raw) == Ok(doc) && Normalize(env, doc.config) == Ok(cfg)
    ensures var out := MarshalTyped(doc, cfg, 1);
      PeersOf(out) == PeersOf(doc.raw) || forall i :: 0 <= i < |PeersOf(out)| ==> MigrationLog !in PeersOf(out)[i]
  {
    var out := MarshalTyped(doc, cfg, 1);
    Rewrites.SectionAfter(env, doc, cfg, 1);
    if RewritesSSH(doc, cfg) {
      Rewrites.FreshLacksLogs(cfg);
    }
  }

  /** A first write of a supported document gives a supported one at revision 1. */
  lemma EnsureSupports(env: Env, w: Write, raw: Fields)
    requires env.WellFormed() && SupportedStart(env, w, raw) && Parse(env, raw).value.revision.None?
    ensures var result := UpdateScoped(env, raw, FirstWrite(Parse(env, raw).value), KeepConfig);
      result.Ok? && Supported(env, w, result.value) && HasRevision(env, result.value, 1)
  {
    var doc := Parse(env, raw).value;
    var cfg := Normalize(env, doc.config).value;
    EnsureWrites(env, raw);
    VersionedHasRevision(env, raw);
    var out := UpdateScoped(env, raw, FirstWrite(doc), KeepConfig).value;
    RawPeersDecode(env, raw);
    ParsedPeers(env, out);
    EnsuredPeers(env, doc, cfg);
    assert PeerViews([]) == [];
    assert PeerViews(PeersOf(raw)) == PeerViews(PeersOf(out));
    EnsuredSupported(env, w, PeersOf(raw), PeersOf(out));
  }

  lemma EnsuredSupported(env: Env, w: Write, before: seq<Fields>, after: seq<Fields>)
    requires PeerViews(before) == PeerViews(after)
    requires before == after || forall i :: 0 <= i < |after| ==> MigrationLog !in after[i]
    requires SupportedPeer(env, PeerIn(before, w.peer)) && TargetFree(env, w, Others(before, w.peer))
    ensures SupportedPeer(env, PeerIn(after, w.peer)) && TargetFree(env, w, Others(after, w.peer))
  {
    SameViewsSamePeer(before, after, w.peer);
    SameViewsTargetFree(env, w, Others(before, w.peer), Others(after, w.peer));
    if before != after && PeerIn(after, w.peer).Some? {
      var peer := PeerIn(after, w.peer).value;
      assert MigrationLog !in peer;
    }
  }

  /** What the first write is. */
  function FirstWritten(env: Env, raw: Fields): Result<Fields>
    requires Parse(env, raw).Ok?
  {
    UpdateScoped(env, raw, FirstWrite(Parse(env, raw).value), KeepConfig)
  }

  /** The document has no revision yet and takes its first one. */
  predicate FirstSucceeds(env: Env, raw: Fields) {
    && Parse(env, raw).Ok? && RevisionOf(env, raw).None?
    && FirstWritten(env, raw).Ok? && RevisionOf(env, FirstWritten(env, raw).value) == Some(1)
  }

  /** The first write with no other writer. */
  lemma CalmEnsured(env: Env, world: World, seen: Run, doc: Document)
    requires Calm(env, world) && seen.ok
    ensures var out, result := Ensured(env, world, seen, doc), UpdateScoped(env, seen.raw, FirstWrite(doc), KeepConfig);
      && (out.raw == seen.raw || result == Ok(out.raw))
      && (out.ok ==> RevisionOf(env, out.raw) == Some(out.rev)) && out.states == seen.states
      && (Smooth(env, world) && result.Ok? && RevisionOf(env, result.value) == Some(1) ==> out.ok && out.raw == result.value)
  {
    var r := Scoped(Expectation(doc.state, None), KeepConfig);
    var ensured := Send(env, world, seen, r);
    CalmSend(env, world, seen, r);
    assert Attempt(env, seen.raw, r) == UpdateScoped(env, seen.raw, FirstWrite(doc), KeepConfig);
    assert world.noise(ensured.calls, ensured.raw) == ensured.raw;
  }

  /** The document after reading the revision is the one before, or its first
      write if it had none. */
  lemma CalmReadRevision(env: Env, world: World, raw: Fields, calls: nat)
    requires Calm(env, world)
    ensures var start := ReadRevision(env, world, StartRun(raw, calls));
      && (start.raw == raw || (Parse(env, raw).Ok? && RevisionOf(env, raw).None? && FirstWritten(env, raw) == Ok(start.raw)))
      && (start.ok ==> RevisionOf(env, start.raw) == Some(start.rev) && start.states == map[])
      && (Smooth(env, world) && RevisionOf(env, raw).Some? ==> start.ok)
      && (Smooth(env, world) && FirstSucceeds(env, raw) ==> start.ok && FirstWritten(env, raw) == Ok(start.raw))
  {
    var seen := Look(world, StartRun(raw, calls));
    assert world.noise(calls, raw) == raw;
    if seen.ok && Parse(env, raw).Ok? {
      CalmEnsured(env, world, seen, Parse(env, raw).value);
    }
  }

  /** Reading the revision, giving the document its first one if it has none. */
  lemma ReadRevisionSteps(env: Env, world: World, w: Write, raw: Fields, calls: nat)
    requires env.WellFormed() && Calm(env, world)
    ensures var start := ReadRevision(env, world, StartRun(raw, calls));
      && Begun(env, start)
      && (RevisionOf(env, raw).Some? ==> start.raw == raw && (start.ok ==> RevisionOf(env, raw) == Some(start.rev)))
      && (SupportedStart(env, w, raw) ==> SupportedStart(env, w, start.raw))
      && (SupportedStart(env, w, raw) && Smooth(env, world) ==>
            start.ok && Supported(env, w, start.raw) && start.rev == if RevisionOf(env, raw).Some? then RevisionOf(env, raw).value else 1)
  {
    var start := ReadRevision(env, world, StartRun(raw, calls));
    CalmReadRevision(env, world, raw, calls);
    HeldRevision(env, start.raw);
    if SupportedStart(env, w, raw) {
      if RevisionOf(env, raw).Some? {
        SupportedStarts(env, w, raw);
      } else {
        FirstSupports(env, w, raw, start.raw);
      }
    }
  }

  lemma HeldRevision(env: Env, raw: Fields)
    ensures RevisionOf(env, raw).Some? ==> HasRevision(env, raw, RevisionOf(env, raw).value) && RevisionOf(env, raw).value > 0
  {
    if Parse(env, raw).Ok? {
      VersionedHasRevision(env, raw);
    }
  }

  lemma FirstSupports(env: Env, w: Write, raw: Fields, out: Fields)
    requires env.WellFormed() && SupportedStart(env, w, raw) && RevisionOf(env, raw).None?
    ensures FirstSucceeds(env, raw)
    ensures FirstWritten(env, raw) == Ok(out) ==> Supported(env, w, out) && SupportedStart(env, w, out)
  {
    EnsureSupports(env, w, raw);
    SupportedStarts(env, w, FirstWritten(env, raw).value);
  }

  // ---- whole runs ----

  /** Revisions left for so many writes. */
  ghost predicate Room(env: Env, raw: Fields, writes: nat) {
    RevisionOf(env, raw).Some? ==> RevisionOf(env, raw).value + writes <= MAX_UINT64
  }

  /** The stage phase: success means staged with the mutation's material; every
      partial run leaves a supported document supported; and when no call fails
      it succeeds on every supported document. */
  lemma StageRun(env: Env, world: World, job: Job, w: Write, raw: Fields, calls: nat)
    requires env.WellFormed() && Calm(env, world) && PlanJob(env, job, w) && Alone(job, w)
    ensures var out := ApplyStage(env, world, job, raw, calls);
      && (out.ok ==> Reached(env, job, w, out.raw, 4))
      && (SupportedStart(env, w, raw) ==> SupportedStart(env, w, out.raw))
      && (Smooth(env, world) && SupportedStart(env, w, raw) && Room(env, raw, 4) ==> out.ok)
      && (Smooth(env, world) && SupportedStart(env, w, raw) && Room(env, raw, 5) ==> Room(env, out.raw, 1))
  {
    ReadRevisionSteps(env, world, w, raw, calls);
    var start := ReadRevision(env, world, StartRun(raw, calls));
    if start.ok {
      StagePartSteps(env, world, job, w, start);
      SupportedStarts(env, w, start.raw);
      var out := StagePart(env, world, job, start);
      if Supported(env, w, start.raw) {
        SupportedStarts(env, w, out.raw);
      }
    } else {
      FailedRunsStay(env, world, job);
    }
  }

  /** The ready phase, on a document that was staged. */
  lemma ReadyRun(env: Env, world: World, job: Job, w: Write, raw: Fields, calls: nat)
    requires env.WellFormed() && Calm(env, world) && PlanJob(env, job, w) && Alone(job, w)
    requires Reached(env, job, w, raw, 4)
    ensures var out := ApplyReady(env, world, job, raw, calls);
      && (out.ok ==> Reached(env, job, w, out.raw, 5))
      && (Supported(env, w, raw) ==> Supported(env, w, out.raw))
      && (Smooth(env, world) && Supported(env, w, raw) && Room(env, raw, 1) ==> out.ok)
  {
    ReadRevisionSteps(env, world, w, raw, calls);
    SupportedStarts(env, w, raw);
    var start := ReadRevision(env, world, StartRun(raw, calls));
    if start.ok {
      ReadingThenReady(env, world, job, w, start);
    } else {
      FailedRunsStay(env, world, job);
    }
  }

  lemma ReadingThenReady(env: Env, world: World, job: Job, w: Write, start: Run)
    requires env.WellFormed() && Calm(env, world) && PlanJob(env, job, w) && Alone(job, w)
    requires Begun(env, start) && start.ok && Reached(env, job, w, start.raw, 4)
    ensures StepsWithin(env, world, job, w, start, FullPass(env, world, job, Readying, FullPass(env, world, job, Reading, start)), 5, 1)
  {
    ReadingTracks(env, world, job, w, start, 4);
    var read := ReadPeerState(env, world, start, w);
    ReadPass(env, world, job, w, start);
    ReadyPass(env, world, job, w, read);
    if read.ok {
      ReadySteps(env, world, job, w, read);
    }
  }

  /** Stage and ready in one run. */
  lemma AllRun(env: Env, world: World, job: Job, w: Write, raw: Fields, calls: nat)
    requires env.WellFormed() && Calm(env, world) && PlanJob(env, job, w) && Alone(job, w)
    ensures var out := ApplyAll(env, world, job, raw, calls);
      && (out.ok ==> Reached(env, job, w, out.raw, 5))
      && (SupportedStart(env, w, raw) ==> SupportedStart(env, w, out.raw))
      && (Smooth(env, world) && SupportedStart(env, w, raw) && Room(env, raw, 5) ==> out.ok)
  {
    ReadRevisionSteps(env, world, w, raw, calls);
    var start := ReadRevision(env, world, StartRun(raw, calls));
    if start.ok {
      StagePartSteps(env, world, job, w, start);
      SupportedStarts(env, w, start.raw);
      StagedThenReady(env, world, job, w, start, StagePart(env, world, job, start));
    } else {
      FailedRunsStay(env, world, job);
    }
  }

  lemma StagedThenReady(env: Env, world: World, job: Job, w: Write, start: Run, staged: Run)
    requires env.WellFormed() && Calm(env, world) && PlanJob(env, job, w) && Alone(job, w)
    requires StepsWithin(env, world, job, w, start, staged, 4, 4)
    ensures var out := FullPass(env, world, job, Readying, staged);
      && StepsWithin(env, world, job, w, start, out, 5, 5)
      && (Supported(env, w, start.raw) ==> SupportedStart(env, w, out.raw))
  {
    var out := FullPass(env, world, job, Readying, staged);
    ReadyPass(env, world, job, w, staged);
    if staged.ok {
      ReadySteps(env, world, job, w, staged);
    }
    Then(env, world, job, w, start, staged, out, 4, 5, 4, 1);
    if Supported(env, w, start.raw) {
      SupportedStarts(env, w, out.raw);
    }
  }

  /** One apply can be resumed: after any partial run of stage and ready in one, from
      any supported document, running again readies the peer with the mutation's
      key IDs. */
  lemma ApplyCompletes(env: Env, broken: World, smooth: World, job: Job, again: Job, w: Write, raw: Fields, left: Fields)
    requires env.WellFormed() && Calm(env, broken) && Smooth(env, smooth)
    requires PlanJob(env, job, w) && Alone(job, w) && PlanJob(env, again, w) && Alone(again, w)
    requires SupportedStart(env, w, raw) && left == ApplyAll(env, broken, job, raw, 0).raw && Room(env, left, 5)
    ensures var out := ApplyAll(env, smooth, again, left, 0);
      && out.ok && Reached(env, again, w, out.raw, 5)
      && PeerView(PeerAt(out.raw, w.peer).value).proof.acceptKeyID == PeerKey(again, w).keyID
      && PeerView(PeerAt(out.raw, w.peer).value).proof.connectKeyID == OwnKey(again, w).keyID
  {
    AllRun(env, broken, job, w, raw, 0);
    AllRun(env, smooth, again, w, left, 0);
  }
}
