/** Applying a pair's configuration writes to several target hosts in one call: the
    loops go over all hosts and all writes and end at the first error
    (internal/sshprovision/config_applicator.go). Each host has its own file,
    revision and peer states. */
module HostApplies {
  import opened Wrappers
  import opened Jsons
  import opened Configs
  import opened Stores
  import opened Applicators
  import opened Contiguity

  /** What is held per target host, and whether there was no error yet. */
  datatype Runs = Runs(of: map<Txt, Run>, ok: bool)

  /** The mutation and its constants, and what happens to each host's file. */
  datatype Fleet = Fleet(m: Mutation, at: Txt, logID: Txt, world: Txt -> World)

  function JobFor(f: Fleet, host: Txt): Job {
    Job(f.m, host, f.at, f.logID)
  }

  // ---- the two kinds of loop ----

  /** One write; those for hosts that are no targets are passed over. */
  function OnWrite(env: Env, f: Fleet, phase: Phase, rs: Runs, w: Write): Runs {
    if !rs.ok || w.target !in rs.of then rs
    else
      var out := StepOf(env, f.world(w.target), JobFor(f, w.target), phase, rs.of[w.target], w);
      Runs(rs.of[w.target := out], out.ok)
  }

  function WritesPass(env: Env, f: Fleet, phase: Phase, rs: Runs, n: nat): Runs
    requires n <= |f.m.writes|
  {
    if n == 0 then rs else OnWrite(env, f, phase, WritesPass(env, f, phase, rs, n - 1), f.m.writes[n - 1])
  }

  function OnHost(step: (Txt, Run) -> Run, rs: Runs, host: Txt): Runs {
    if !rs.ok || host !in rs.of then rs
    else
      var out := step(host, rs.of[host]);
      Runs(rs.of[host := out], out.ok)
  }

  function HostsPass(step: (Txt, Run) -> Run, rs: Runs, hosts: seq<Txt>, n: nat): Runs
    requires n <= |hosts|
  {
    if n == 0 then rs else OnHost(step, HostsPass(step, rs, hosts, n - 1), hosts[n - 1])
  }

  function Learning(env: Env, f: Fleet): (Txt, Run) -> Run {
    (host: Txt, run: Run) => ReadRevision(env, f.world(host), run)
  }

  function Sending(env: Env, f: Fleet): (Txt, Run) -> Run {
    (host: Txt, run: Run) => SendMaterial(env, f.world(host), JobFor(f, host), run)
  }

  function AllWrites(env: Env, f: Fleet, phase: Phase, rs: Runs): Runs {
    WritesPass(env, f, phase, rs, |f.m.writes|)
  }

  function StageHosts(env: Env, f: Fleet, rs: Runs, hosts: seq<Txt>): Runs {
    var checked := AllWrites(env, f, Checking, AllWrites(env, f, Reading, rs));
    var sent := HostsPass(Sending(env, f), checked, hosts, |hosts|);
    AllWrites(env, f, Staging, AllWrites(env, f, Proving, AllWrites(env, f, Upserting, sent)))
  }

  function Started(docs: map<Txt, Fields>): Runs {
    Runs(map h | h in docs :: StartRun(docs[h], 0), true)
  }

  predicate AllMaterial(env: Env, m: Mutation, hosts: seq<Txt>) {
    forall i :: 0 <= i < |hosts| ==> MutationOk(env, m, hosts[i])
  }

  /** The whole call. The hosts are the keys of docs, in order. */
  function AppliedTo(env: Env, f: Fleet, phase: ApplyPhase, docs: map<Txt, Fields>, hosts: seq<Txt>): Runs {
    if !phase.ReadyOnly? && !AllMaterial(env, f.m, hosts) then Started(docs).(ok := false)
    else
      var learnt := HostsPass(Learning(env, f), Started(docs), hosts, |hosts|);
      var staged := if phase.ReadyOnly? then AllWrites(env, f, Reading, learnt) else StageHosts(env, f, learnt, hosts);
      if phase.StageOnly? then staged else AllWrites(env, f, Readying, staged)
  }

  // ---- the loops as they run ----

  lemma {:induction false} ErrorEndsWrites(env: Env, f: Fleet, phase: Phase, rs: Runs, i: nat, n: nat)
    requires i <= n <= |f.m.writes| && !WritesPass(env, f, phase, rs, i).ok
    ensures WritesPass(env, f, phase, rs, n) == WritesPass(env, f, phase, rs, i)
    decreases n
  {
    if i < n {
      ErrorEndsWrites(env, f, phase, rs, i, n - 1);
    }
  }

  lemma {:induction false} ErrorEndsHosts(step: (Txt, Run) -> Run, rs: Runs, hosts: seq<Txt>, i: nat, n: nat)
    requires i <= n <= |hosts| && !HostsPass(step, rs, hosts, i).ok
    ensures HostsPass(step, rs, hosts, n) == HostsPass(step, rs, hosts, i)
    decreases n
  {
    if i < n {
      ErrorEndsHosts(step, rs, hosts, i, n - 1);
    }
  }

  /** One Apply at work on several hosts. */
  class HostApplicator {
    var runs: map<Txt, Run>

    constructor (docs: map<Txt, Fields>)
      ensures Runs(runs, true) == Started(docs)
    {
      runs := map h | h in docs :: StartRun(docs[h], 0);
    }

    method EachWrite(env: Env, f: Fleet, phase: Phase) returns (ok: bool)
      modifies this
      ensures Runs(runs, ok) == AllWrites(env, f, phase, Runs(old(runs), true))
    {
      ghost var start := Runs(runs, true);
      for i := 0 to |f.m.writes|
        invariant Runs(runs, true) == WritesPass(env, f, phase, start, i)
      {
        var w := f.m.writes[i];
        if w.target !in runs {
          continue;
        }
        var out := StepOf(env, f.world(w.target), JobFor(f, w.target), phase, runs[w.target], w);
        runs := runs[w.target := out];
        if !out.ok {
          ErrorEndsWrites(env, f, phase, start, i + 1, |f.m.writes|);
          return false;
        }
      }
      return true;
    }

    method EachHost(step: (Txt, Run) -> Run, hosts: seq<Txt>) returns (ok: bool)
      modifies this
      ensures Runs(runs, ok) == HostsPass(step, Runs(old(runs), true), hosts, |hosts|)
    {
      ghost var start := Runs(runs, true);
      for i := 0 to |hosts|
        invariant Runs(runs, true) == HostsPass(step, start, hosts, i)
      {
        if hosts[i] !in runs {
          continue;
        }
        var out := step(hosts[i], runs[hosts[i]]);
        runs := runs[hosts[i] := out];
        if !out.ok {
          ErrorEndsHosts(step, start, hosts, i + 1, |hosts|);
          return false;
        }
      }
      return true;
    }

    method Stage(env: Env, f: Fleet, hosts: seq<Txt>) returns (ok: bool)
      modifies this
      ensures Runs(runs, ok) == StageHosts(env, f, Runs(old(runs), true), hosts)
    {
      FailedPassesStay(env, f, hosts);
      ok := EachWrite(env, f, Reading);
      if ok { ok := EachWrite(env, f, Checking); }
      if ok { ok := EachHost(Sending(env, f), hosts); }
      if ok { ok := EachWrite(env, f, Upserting); }
      if ok { ok := EachWrite(env, f, Proving); }
      if ok { ok := EachWrite(env, f, Staging); }
    }

    method Apply(env: Env, f: Fleet, phase: ApplyPhase, ghost docs: map<Txt, Fields>, hosts: seq<Txt>) returns (ok: bool)
      requires Runs(runs, true) == Started(docs)
      modifies this
      ensures Runs(runs, ok) == AppliedTo(env, f, phase, docs, hosts)
    {
      if !phase.ReadyOnly? && !AllMaterial(env, f.m, hosts) {
        return false;
      }
      FailedPassesStay(env, f, hosts);
      ok := EachHost(Learning(env, f), hosts);
      if ok && !phase.ReadyOnly? { ok := Stage(env, f, hosts); }
      if ok && phase.ReadyOnly? { ok := EachWrite(env, f, Reading); }
      if ok && !phase.StageOnly? { ok := EachWrite(env, f, Readying); }
    }
  }

  /** After an error every later loop leaves everything alone. */
  lemma FailedPassesStay(env: Env, f: Fleet, hosts: seq<Txt>)
    ensures forall rs: Runs, phase: Phase :: !rs.ok ==> AllWrites(env, f, phase, rs) == rs
    ensures forall rs: Runs :: !rs.ok ==> HostsPass(Sending(env, f), rs, hosts, |hosts|) == rs
    ensures forall rs: Runs :: !rs.ok ==> StageHosts(env, f, rs, hosts) == rs
  {
    forall rs: Runs, phase: Phase | !rs.ok
      ensures AllWrites(env, f, phase, rs) == rs
    {
      ErrorEndsWrites(env, f, phase, rs, 0, |f.m.writes|);
    }
    forall rs: Runs | !rs.ok
      ensures HostsPass(Sending(env, f), rs, hosts, |hosts|) == rs
    {
      ErrorEndsHosts(Sending(env, f), rs, hosts, 0, |hosts|);
    }
  }

  // ---- every host sees its own apply ----

  /** Without an error so far there was none on any host. */
  ghost predicate AllFine(rs: Runs) {
    rs.ok ==> forall h :: h in rs.of ==> rs.of[h].ok
  }

  lemma {:induction false} WritesSplit(env: Env, f: Fleet, phase: Phase, rs: Runs, n: nat, h: Txt)
    requires n <= |f.m.writes| && WritesPass(env, f, phase, rs, n).ok && h in rs.of && AllFine(rs)
    ensures rs.ok && h in WritesPass(env, f, phase, rs, n).of && AllFine(WritesPass(env, f, phase, rs, n))
    ensures WritesPass(env, f, phase, rs, n).of[h] == Pass(env, f.world(h), JobFor(f, h), phase, rs.of[h], n)
  {
    if n > 0 {
      var before := WritesPass(env, f, phase, rs, n - 1);
      assert before.ok;
      WritesSplit(env, f, phase, rs, n - 1, h);
      WriteSplits(env, f, phase, before, f.m.writes[n - 1], h);
    }
  }

  lemma WriteSplits(env: Env, f: Fleet, phase: Phase, rs: Runs, w: Write, h: Txt)
    requires OnWrite(env, f, phase, rs, w).ok && h in rs.of && AllFine(rs)
    ensures h in OnWrite(env, f, phase, rs, w).of && AllFine(OnWrite(env, f, phase, rs, w))
    ensures OnWrite(env, f, phase, rs, w).of[h] == StepOf(env, f.world(h), JobFor(f, h), phase, rs.of[h], w)
  {
  }

  lemma {:induction false} HostsSplit(step: (Txt, Run) -> Run, rs: Runs, hosts: seq<Txt>, n: nat, h: Txt)
    requires n <= |hosts| && HostsPass(step, rs, hosts, n).ok && h in rs.of && AllFine(rs)
    requires forall i, j :: 0 <= i < j < |hosts| ==> hosts[i] != hosts[j]
    ensures rs.ok && h in HostsPass(step, rs, hosts, n).of && AllFine(HostsPass(step, rs, hosts, n))
    ensures HostsPass(step, rs, hosts, n).of[h] == if h in hosts[..n] then step(h, rs.of[h]) else rs.of[h]
  {
    if n > 0 {
      HostsSplit(step, rs, hosts, n - 1, h);
      assert hosts[..n] == hosts[..n - 1] + [hosts[n - 1]];
    }
  }

  ghost predicate Targets(docs: map<Txt, Fields>, hosts: seq<Txt>) {
    && (forall i, j :: 0 <= i < j < |hosts| ==> hosts[i] != hosts[j])
    && (forall h :: h in docs <==> h in hosts)
  }

  lemma StageSplits(env: Env, f: Fleet, rs: Runs, hosts: seq<Txt>, h: Txt)
    requires StageHosts(env, f, rs, hosts).ok && h in rs.of && h in hosts && AllFine(rs)
    requires forall i, j :: 0 <= i < j < |hosts| ==> hosts[i] != hosts[j]
    ensures rs.ok && h in StageHosts(env, f, rs, hosts).of && AllFine(StageHosts(env, f, rs, hosts))
    ensures StageHosts(env, f, rs, hosts).of[h] == StagePart(env, f.world(h), JobFor(f, h), rs.of[h])
  {
    var n := |f.m.writes|;
    var read := AllWrites(env, f, Reading, rs);
    var checked := AllWrites(env, f, Checking, read);
    var sent := HostsPass(Sending(env, f), checked, hosts, |hosts|);
    var upserted := AllWrites(env, f, Upserting, sent);
    var proved := AllWrites(env, f, Proving, upserted);
    FailedPassesStay(env, f, hosts);
    WritesSplit(env, f, Reading, rs, n, h);
    WritesSplit(env, f, Checking, read, n, h);
    HostsSplit(Sending(env, f), checked, hosts, |hosts|, h);
    assert hosts[..|hosts|] == hosts;
    WritesSplit(env, f, Upserting, sent, n, h);
    WritesSplit(env, f, Proving, upserted, n, h);
    WritesSplit(env, f, Staging, proved, n, h);
  }

  /** A call on several hosts that succeeds is, on every one of them, a call on that
      host alone that succeeds. */
  lemma ApplySplits(env: Env, f: Fleet, phase: ApplyPhase, docs: map<Txt, Fields>, hosts: seq<Txt>, h: Txt)
    requires Targets(docs, hosts) && h in hosts && AppliedTo(env, f, phase, docs, hosts).ok
    ensures h in AppliedTo(env, f, phase, docs, hosts).of
    ensures AppliedTo(env, f, phase, docs, hosts).of[h] == Applied(env, f.world(h), JobFor(f, h), phase, docs[h], 0)
    ensures Applied(env, f.world(h), JobFor(f, h), phase, docs[h], 0).ok
  {
    var n := |f.m.writes|;
    var learnt := HostsPass(Learning(env, f), Started(docs), hosts, |hosts|);
    FailedPassesStay(env, f, hosts);
    assert hosts[..|hosts|] == hosts;
    assert learnt.ok;
    HostsSplit(Learning(env, f), Started(docs), hosts, |hosts|, h);
    if phase.ReadyOnly? {
      WritesSplit(env, f, Reading, learnt, n, h);
      WritesSplit(env, f, Readying, AllWrites(env, f, Reading, learnt), n, h);
    } else {
      StageSplits(env, f, learnt, hosts, h);
      if phase.Both? {
        WritesSplit(env, f, Readying, StageHosts(env, f, learnt, hosts), n, h);
      }
    }
  }

  /** So a successful stage on several hosts is a contiguous block of writes on each
      of them: a foreign write on any host after its revision was read makes the
      whole call fail. */
  lemma StageIsContiguousOnEveryHost(env: Env, f: Fleet, docs: map<Txt, Fields>, hosts: seq<Txt>, h: Txt, start: Run)
    requires Targets(docs, hosts) && h in hosts && AppliedTo(env, f, StageOnly, docs, hosts).ok
    requires Polite(env, f.world(h)) && start == ReadRevision(env, f.world(h), StartRun(docs[h], 0))
    ensures h in AppliedTo(env, f, StageOnly, docs, hosts).of
    ensures Contiguous(env, AppliedTo(env, f, StageOnly, docs, hosts).of[h], StagePart(env, Quiet(f.world(h)), JobFor(f, h), start), start)
  {
    ApplySplits(env, f, StageOnly, docs, hosts, h);
    StageIsContiguous(env, f.world(h), JobFor(f, h), docs[h], 0, start);
  }

  lemma AllIsContiguousOnEveryHost(env: Env, f: Fleet, docs: map<Txt, Fields>, hosts: seq<Txt>, h: Txt, start: Run)
    requires Targets(docs, hosts) && h in hosts && AppliedTo(env, f, Both, docs, hosts).ok
    requires Polite(env, f.world(h)) && start == ReadRevision(env, f.world(h), StartRun(docs[h], 0))
    ensures h in AppliedTo(env, f, Both, docs, hosts).of
    ensures Contiguous(env, AppliedTo(env, f, Both, docs, hosts).of[h],
                       FullPass(env, Quiet(f.world(h)), JobFor(f, h), Readying, StagePart(env, Quiet(f.world(h)), JobFor(f, h), start)), start)
  {
    ApplySplits(env, f, Both, docs, hosts, h);
    AllIsContiguous(env, f.world(h), JobFor(f, h), docs[h], 0, start);
  }
}
