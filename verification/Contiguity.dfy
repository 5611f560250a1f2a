/** No lost update in the applicator: a successful run is one contiguous block of
    writes, however other writers interleave with it. */
module Contiguity {
  import opened Wrappers
  import opened Jsons
  import opened Configs
  import opened Documents
  import opened PeerOps
  import opened PeerEffects
  import opened Stores
  import opened Applicators

  /** A later document: what any number of other writers leave (see
      Stores.RevisionsGrow and Stores.AttemptAdvances). */
  ghost predicate Newer(env: Env, before: Fields, after: Fields) {
    RevisionOf(env, after).Some? &&
    (RevisionOf(env, before).Some? ==> RevisionOf(env, before).value < RevisionOf(env, after).value)
  }

  /** Other writers go through the locked mutators, and ours compare and swap. */
  ghost predicate Polite(env: Env, world: World) {
    && (forall k: nat, raw: Fields :: world.noise(k, raw) == raw || Newer(env, raw, world.noise(k, raw)))
    && (forall raw: Fields, r: Request :: world.ops(raw, r).Ok? ==> Swaps(env, raw, world.ops(raw, r).value, r))
  }

  ghost predicate Swaps(env: Env, before: Fields, after: Fields, r: Request) {
    && RevisionOf(env, before) == Expects(r)
    && RevisionOf(env, after) == Some(if Expects(r).Some? then Expects(r).value + 1 else 1)
  }

  lemma RealMutatorsSwap(env: Env, world: World)
    requires env.WellFormed() && Real(env, world)
    ensures forall raw: Fields, r: Request :: world.ops(raw, r).Ok? ==> Swaps(env, raw, world.ops(raw, r).value, r)
  {
    forall raw: Fields, r: Request | world.ops(raw, r).Ok?
      ensures Swaps(env, raw, world.ops(raw, r).value, r)
    {
      assert world.ops(raw, r) == Attempt(env, raw, r);
      AttemptAdvances(env, raw, r);
    }
  }

  /** The lockstep run without interference has the same state, up to here. */
  ghost predicate InStep(env: Env, run: Run, quiet: Run, base: nat) {
    run == quiet && RevisionOf(env, run.raw) == Some(run.rev) && run.rev == base + run.sent
  }

  /** Someone else wrote since the revision was read: no write can succeed. */
  ghost predicate Overtaken(env: Env, run: Run) {
    run.sent == 0 && RevisionOf(env, run.raw).Some? && run.rev < RevisionOf(env, run.raw).value
  }

  ghost predicate Follows(env: Env, run: Run, quiet: Run, base: nat) {
    run.ok ==> InStep(env, run, quiet, base) || Overtaken(env, run)
  }

  /** A write that succeeds found the document exactly as the last call left it. */
  lemma SendFollows(env: Env, world: World, run: Run, quiet: Run, r: Request, base: nat)
    requires Polite(env, world) && run.ok && Follows(env, run, quiet, base)
    requires Expects(r) == Some(run.rev)
    ensures Send(env, world, run, r).ok ==> InStep(env, Send(env, world, run, r), Send(env, Quiet(world), quiet, r), base)
  {
    var raw := world.noise(run.calls, run.raw);
    assert raw == run.raw || Newer(env, run.raw, raw);
    if world.ops(raw, r).Ok? {
      assert Swaps(env, raw, world.ops(raw, r).value, r);
      assert raw == run.raw;
    }
  }

  lemma LookFollows(env: Env, world: World, run: Run, quiet: Run, base: nat)
    requires Polite(env, world) && run.sent == 0 && Follows(env, run, quiet, base)
    ensures Follows(env, Look(world, run), Look(Quiet(world), quiet), base)
  {
    var raw := world.noise(run.calls, run.raw);
    assert raw == run.raw || Newer(env, run.raw, raw);
  }

  lemma ReadFollows(env: Env, world: World, run: Run, quiet: Run, w: Write, base: nat)
    requires Polite(env, world) && run.sent == 0 && Follows(env, run, quiet, base)
    ensures Follows(env, ReadPeerState(env, world, run, w), ReadPeerState(env, Quiet(world), quiet, w), base)
    ensures ReadPeerState(env, world, run, w).sent == run.sent
  {
    LookFollows(env, world, run, quiet, base);
  }

  lemma MoveFollows(env: Env, world: World, job: Job, run: Run, quiet: Run, w: Write, from: Txt, next: Txt, reason: Txt, base: nat)
    requires Polite(env, world) && run.ok && Follows(env, run, quiet, base)
    ensures Follows(env, MoveTo(env, world, job, run, w, from, next, reason), MoveTo(env, Quiet(world), job, quiet, w, from, next, reason), base)
  {
    SendFollows(env, world, run, quiet, ForPeer(w.peer, run.rev, Transition(Move(from, next, reason, job.logID, None, None))), base);
  }

  lemma UpsertFollows(env: Env, world: World, job: Job, run: Run, quiet: Run, w: Write, base: nat)
    requires Polite(env, world) && Follows(env, run, quiet, base)
    ensures run.ok ==> Follows(env, UpsertStep(env, world, run, w), UpsertStep(env, Quiet(world), quiet, w), base)
  {
    if run.ok {
      SendFollows(env, world, run, quiet, ForPeer(w.peer, run.rev, Upsert(FieldsFor(w, StateOf(run, w).Known?))), base);
    }
  }

  lemma ProofFollows(env: Env, world: World, job: Job, run: Run, quiet: Run, w: Write, base: nat)
    requires Polite(env, world) && Follows(env, run, quiet, base)
    ensures run.ok ==> Follows(env, ProofStep(env, world, job, run, w), ProofStep(env, Quiet(world), job, quiet, w), base)
  {
    var acceptKey, connectKey := SyncKeyFor(job.m, w.peer), SyncKeyFor(job.m, w.target);
    if run.ok && acceptKey.Some? && connectKey.Some? {
      SendFollows(env, world, run, quiet, ForPeer(w.peer, run.rev, PatchProof(AcceptPatch(w, acceptKey.value, job.at), ConnectPatch(w, connectKey.value, job.at))), base);
    }
  }

  lemma StageStepIs(env: Env, world: World, job: Job, run: Run, w: Write)
    requires run.ok
    ensures var state, out := StateOf(run, w), StageStep(env, world, job, run, w);
      if state.Known? && (state.state.Loopback? || state.state.Failed?) then
        out == MoveTo(env, world, job, run, w, state.state, Staged, StageReason(state.state))
      else
        out == run || !out.ok
  {
  }

  lemma StagingMoves(env: Env, world: World, job: Job, run: Run, quiet: Run, w: Write, base: nat, from: Txt)
    requires Polite(env, world) && run.ok && Follows(env, run, quiet, base)
    requires StateOf(run, w) == Known(from) && (from.Loopback? || from.Failed?)
    ensures Follows(env, StageStep(env, world, job, run, w), StageStep(env, Quiet(world), job, quiet, w), base)
  {
    MoveFollows(env, world, job, run, quiet, w, from, Staged, StageReason(from), base);
    StageStepIs(env, world, job, run, w);
    if InStep(env, run, quiet, base) {
      StageStepIs(env, Quiet(world), job, quiet, w);
    }
  }

  lemma StagingFollows(env: Env, world: World, job: Job, run: Run, quiet: Run, w: Write, base: nat)
    requires Polite(env, world) && run.ok && Follows(env, run, quiet, base)
    ensures Follows(env, StageStep(env, world, job, run, w), StageStep(env, Quiet(world), job, quiet, w), base)
  {
    var state := StateOf(run, w);
    if state.Known? && (state.state.Loopback? || state.state.Failed?) {
      StagingMoves(env, world, job, run, quiet, w, base, state.state);
    } else {
      StageStepIs(env, world, job, run, w);
      StageStepIs(env, Quiet(world), job, run, w);
    }
  }

  lemma ReadyingFollows(env: Env, world: World, job: Job, run: Run, quiet: Run, w: Write, base: nat)
    requires Polite(env, world) && Follows(env, run, quiet, base)
    ensures run.ok ==> Follows(env, ReadyStep(env, world, job, run, w), ReadyStep(env, Quiet(world), job, quiet, w), base)
  {
    if run.ok && StateOf(run, w) == Known(Staged) {
      MoveFollows(env, world, job, run, quiet, w, Staged, Ready, SSHMaterialVerified, base);
    }
  }

  lemma StepFollows(env: Env, world: World, job: Job, phase: Phase, run: Run, quiet: Run, w: Write, base: nat)
    requires Polite(env, world) && Follows(env, run, quiet, base)
    requires phase.Reading? && run.ok ==> run.sent == 0
    ensures Follows(env, StepOf(env, world, job, phase, run, w), StepOf(env, Quiet(world), job, phase, quiet, w), base)
  {
    match phase
    case Reading => if run.ok { ReadFollows(env, world, run, quiet, w, base); }
    case Checking =>
    case Upserting => UpsertFollows(env, world, job, run, quiet, w, base);
    case Proving => ProofFollows(env, world, job, run, quiet, w, base);
    case Staging => if run.ok { StagingFollows(env, world, job, run, quiet, w, base); }
    case Readying => ReadyingFollows(env, world, job, run, quiet, w, base);
  }

  lemma ReadingSendsNothing(env: Env, world: World, job: Job, run: Run, w: Write)
    ensures StepOf(env, world, job, Reading, run, w).sent == run.sent
  {
  }

  lemma {:induction false} PassFollows(env: Env, world: World, job: Job, phase: Phase, run: Run, quiet: Run, n: nat, base: nat)
    requires Polite(env, world) && Follows(env, run, quiet, base) && n <= |job.m.writes|
    requires phase.Reading? && run.ok ==> run.sent == 0
    ensures Follows(env, Pass(env, world, job, phase, run, n), Pass(env, Quiet(world), job, phase, quiet, n), base)
    ensures phase.Reading? && Pass(env, world, job, phase, run, n).ok ==> run.ok && Pass(env, world, job, phase, run, n).sent == 0
  {
    if n > 0 {
      PassFollows(env, world, job, phase, run, quiet, n - 1, base);
      StepFollows(env, world, job, phase, Pass(env, world, job, phase, run, n - 1), Pass(env, Quiet(world), job, phase, quiet, n - 1), job.m.writes[n - 1], base);
      StepSends(env, world, job, phase, Pass(env, world, job, phase, run, n - 1), job.m.writes[n - 1]);
      ReadingSendsNothing(env, world, job, Pass(env, world, job, phase, run, n - 1), job.m.writes[n - 1]);
    }
  }

  lemma MaterialFollows(env: Env, world: World, job: Job, run: Run, quiet: Run, base: nat)
    requires Polite(env, world) && Follows(env, run, quiet, base)
    ensures SendMaterial(env, world, job, run).ok ==> InStep(env, SendMaterial(env, world, job, run), SendMaterial(env, Quiet(world), job, quiet), base)
  {
    var out := SendMaterial(env, world, job, run);
    if out.ok {
      SendMaterialIs(env, world, job, run);
      SendFollows(env, world, run, quiet, ForMaterial(run.rev, JobMaterial(job)), base);
      SendMaterialIs(env, Quiet(world), job, run);
    }
  }

  /** Once a write was sent the run is in step, and stays so. */
  lemma {:induction false} PassInStep(env: Env, world: World, job: Job, phase: Phase, run: Run, quiet: Run, n: nat, base: nat)
    requires Polite(env, world) && n <= |job.m.writes| && !phase.Reading?
    requires run.ok ==> InStep(env, run, quiet, base) && run.sent > 0
    ensures var out := Pass(env, world, job, phase, run, n);
      out.ok ==> InStep(env, out, Pass(env, Quiet(world), job, phase, quiet, n), base) && out.sent > 0
  {
    if n > 0 {
      PassInStep(env, world, job, phase, run, quiet, n - 1, base);
      var before := Pass(env, world, job, phase, run, n - 1);
      StepFollows(env, world, job, phase, before, Pass(env, Quiet(world), job, phase, quiet, n - 1), job.m.writes[n - 1], base);
      StepSends(env, world, job, phase, before, job.m.writes[n - 1]);
    }
  }

  lemma StepSends(env: Env, world: World, job: Job, phase: Phase, run: Run, w: Write)
    ensures StepOf(env, world, job, phase, run, w).sent >= run.sent
    ensures StepOf(env, world, job, phase, run, w).ok ==> run.ok
  {
  }

  /** A document whose revision was just read. */
  ghost predicate JustRead(env: Env, run: Run) {
    run.ok ==> run.sent == 0 && RevisionOf(env, run.raw) == Some(run.rev)
  }

  lemma ReadRevisionReads(env: Env, world: World, raw: Fields, calls: nat)
    ensures JustRead(env, ReadRevision(env, world, StartRun(raw, calls)))
  {
    var seen := Look(world, StartRun(raw, calls));
    if Parse(env, seen.raw).Ok? {
      VersionedHasRevision(env, seen.raw);
    }
  }

  lemma FirstInStep(env: Env, world: World, job: Job, run: Run)
    requires Polite(env, world) && JustRead(env, run)
    ensures var out := FirstPart(env, world, job, run);
      out.ok ==> InStep(env, out, FirstPart(env, Quiet(world), job, run), run.rev) && out.sent > 0
  {
    var base, n := run.rev, |job.m.writes|;
    PassFollows(env, world, job, Reading, run, run, n, base);
    var read, read' := FullPass(env, world, job, Reading, run), FullPass(env, Quiet(world), job, Reading, run);
    PassFollows(env, world, job, Checking, read, read', n, base);
    var checked, checked' := FullPass(env, world, job, Checking, read), FullPass(env, Quiet(world), job, Checking, read');
    MaterialFollows(env, world, job, checked, checked', base);
    MaterialSends(env, world, job, checked);
  }

  lemma MaterialSends(env: Env, world: World, job: Job, run: Run)
    ensures SendMaterial(env, world, job, run).ok ==> SendMaterial(env, world, job, run).sent == run.sent + 1
  {
  }

  lemma SecondInStep(env: Env, world: World, job: Job, run: Run, quiet: Run, base: nat)
    requires Polite(env, world) && (run.ok ==> InStep(env, run, quiet, base) && run.sent > 0)
    ensures var out := SecondPart(env, world, job, run);
      out.ok ==> InStep(env, out, SecondPart(env, Quiet(world), job, quiet), base) && out.sent > 0
  {
    var n := |job.m.writes|;
    PassInStep(env, world, job, Upserting, run, quiet, n, base);
    var upserted, upserted' := FullPass(env, world, job, Upserting, run), FullPass(env, Quiet(world), job, Upserting, quiet);
    PassInStep(env, world, job, Proving, upserted, upserted', n, base);
    PassInStep(env, world, job, Staging, FullPass(env, world, job, Proving, upserted), FullPass(env, Quiet(world), job, Proving, upserted'), n, base);
  }

  lemma StageInStep(env: Env, world: World, job: Job, run: Run)
    requires Polite(env, world) && JustRead(env, run)
    ensures var out := StagePart(env, world, job, run);
      out.ok ==> InStep(env, out, StagePart(env, Quiet(world), job, run), run.rev) && out.sent > 0
  {
    FirstInStep(env, world, job, run);
    SecondInStep(env, world, job, FirstPart(env, world, job, run), FirstPart(env, Quiet(world), job, run), run.rev);
  }

  /** A run that did what an undisturbed run from the revision it read would do,
      and left the revision at the one read plus the number of its writes. */
  ghost predicate Contiguous(env: Env, out: Run, undisturbed: Run, start: Run) {
    out == undisturbed && out.sent > 0 && RevisionOf(env, out.raw) == Some(start.rev + out.sent)
  }

  /** A successful stage is a contiguous block of writes: a foreign write after
      the revision was read makes it fail. */
  lemma StageIsContiguous(env: Env, world: World, job: Job, raw: Fields, calls: nat, start: Run)
    requires Polite(env, world) && start == ReadRevision(env, world, StartRun(raw, calls))
    requires ApplyStage(env, world, job, raw, calls).ok
    ensures Contiguous(env, ApplyStage(env, world, job, raw, calls), StagePart(env, Quiet(world), job, start), start)
  {
    ReadRevisionReads(env, world, raw, calls);
    StagePartIsContiguous(env, world, job, start);
  }

  lemma StagePartIsContiguous(env: Env, world: World, job: Job, start: Run)
    requires Polite(env, world) && JustRead(env, start) && StagePart(env, world, job, start).ok
    ensures Contiguous(env, StagePart(env, world, job, start), StagePart(env, Quiet(world), job, start), start)
  {
    StageInStep(env, world, job, start);
  }

  /** So are stage and ready in one. */
  lemma AllIsContiguous(env: Env, world: World, job: Job, raw: Fields, calls: nat, start: Run)
    requires Polite(env, world) && start == ReadRevision(env, world, StartRun(raw, calls))
    requires ApplyAll(env, world, job, raw, calls).ok
    ensures Contiguous(env, ApplyAll(env, world, job, raw, calls),
                       FullPass(env, Quiet(world), job, Readying, StagePart(env, Quiet(world), job, start)), start)
  {
    ReadRevisionReads(env, world, raw, calls);
    AllPartsAreContiguous(env, world, job, start);
  }

  lemma AllPartsAreContiguous(env: Env, world: World, job: Job, start: Run)
    requires Polite(env, world) && JustRead(env, start)
    requires FullPass(env, world, job, Readying, StagePart(env, world, job, start)).ok
    ensures Contiguous(env, FullPass(env, world, job, Readying, StagePart(env, world, job, start)),
                       FullPass(env, Quiet(world), job, Readying, StagePart(env, Quiet(world), job, start)), start)
  {
    StageInStep(env, world, job, start);
    PassInStep(env, world, job, Readying, StagePart(env, world, job, start), StagePart(env, Quiet(world), job, start), |job.m.writes|, start.rev);
  }

  /** The ready phase alone is contiguous too, unless it had nothing to write. */
  lemma ReadyIsContiguous(env: Env, world: World, job: Job, raw: Fields, calls: nat, start: Run)
    requires Polite(env, world) && start == ReadRevision(env, world, StartRun(raw, calls))
    requires ApplyReady(env, world, job, raw, calls).ok && ApplyReady(env, world, job, raw, calls).sent > 0
    ensures Contiguous(env, ApplyReady(env, world, job, raw, calls),
                       FullPass(env, Quiet(world), job, Readying, FullPass(env, Quiet(world), job, Reading, start)), start)
  {
    ReadRevisionReads(env, world, raw, calls);
    ReadyPartIsContiguous(env, world, job, start, ApplyReady(env, world, job, raw, calls));
  }

  lemma ReadyPartIsContiguous(env: Env, world: World, job: Job, start: Run, out: Run)
    requires Polite(env, world) && JustRead(env, start)
    requires out == FullPass(env, world, job, Readying, FullPass(env, world, job, Reading, start)) && out.ok && out.sent > 0
    ensures Contiguous(env, out, FullPass(env, Quiet(world), job, Readying, FullPass(env, Quiet(world), job, Reading, start)), start)
  {
    ReadyFollows(env, world, job, start);
  }

  lemma ReadyFollows(env: Env, world: World, job: Job, start: Run)
    requires Polite(env, world) && JustRead(env, start)
    ensures Follows(env, FullPass(env, world, job, Readying, FullPass(env, world, job, Reading, start)),
                    FullPass(env, Quiet(world), job, Readying, FullPass(env, Quiet(world), job, Reading, start)), start.rev)
  {
    var n := |job.m.writes|;
    PassFollows(env, world, job, Reading, start, start, n, start.rev);
    PassFollows(env, world, job, Readying, FullPass(env, world, job, Reading, start), FullPass(env, Quiet(world), job, Reading, start), n, start.rev);
  }
}
