/** Once copying stops, the mesh comes to rest: how many gateway polls and
    deliveries are left, and that all of them end in agreement
    (internal/cli/ssh_gateway.go, internal/daemon/daemon.go). */
module Settlings {
  import opened Wrappers
  import opened Daemons
  import opened Gateways
  import opened Meshes

  /** The clips that a gateway stream has yet to push. */
  ghost function Unsent(net: Net, m: Mesh): set<(Link, Clip)>
    requires Shaped(net, m)
  {
    set l, k | l in net.links && k in m.clips && k.content.id !in m.sent[l] :: (l, k)
  }

  /** The places on the wires that hold a clip. */
  ghost function OnTheWay(net: Net, m: Mesh): set<(Link, int)>
    requires Shaped(net, m)
  {
    set l, i | l in net.links && 0 <= i < |m.wire[l]| :: (l, i)
  }

  /** A push and a delivery for every clip and stream that lacks it, and a delivery
      for every clip on the way. */
  ghost function WorkLeft(net: Net, m: Mesh): nat
    requires Shaped(net, m)
  {
    2 * |Unsent(net, m)| + |OnTheWay(net, m)|
  }

  /** No new copy and no lost stream. */
  predicate Calm(net: Net, m: Mesh, step: Step) {
    match step
    case Poll(h, read, minted, _) => h in m.hosts && !PollTakes(m.hosts[h], net.paths, read, minted)
    case Restore(_, _, _, minted) => minted == ""
    case Reconnect(_) => false
    case _ => true
  }

  /** A push or a delivery. */
  predicate Works(m: Mesh, step: Step) {
    step.Deliver? || (step.GatewayPoll? && step.link.0 in m.hosts && step.link in m.sent && Due(m, step.link).Some?)
  }

  // ---- every push and delivery uses up work ----

  lemma PushUses(net: Net, m: Mesh, l: Link)
    requires Inv(net, m) && l in net.links && Due(m, l).Some?
    ensures WorkLeft(net, Next(net, m, GatewayPoll(l))) < WorkLeft(net, m)
  {
    var m', clip := Next(net, m, GatewayPoll(l)), Due(m, l).value;
    GatewayPollKeepsInv(net, m, l);
    assert HostFine(net, m, l.0);
    assert (l, clip) in Unsent(net, m);
    assert Unsent(net, m') <= Unsent(net, m) - {(l, clip)};
    Fewer(Unsent(net, m'), Unsent(net, m), (l, clip));
    assert OnTheWay(net, m') == OnTheWay(net, m) + {(l, |m.wire[l]|)};
  }

  lemma Fewer<T>(a: set<T>, b: set<T>, x: T)
    requires a <= b - {x} && x in b
    ensures |a| < |b|
  {
    SubsetSize(a, b - {x});
  }

  lemma {:induction false} SubsetSize<T>(a: set<T>, b: set<T>)
    requires a <= b
    ensures |a| <= |b|
    decreases a
  {
    if a != {} {
      var x :| x in a;
      SubsetSize(a - {x}, b - {x});
    }
  }

  lemma DeliveryUses(net: Net, m: Mesh, l: Link, saved: Option<string>)
    requires Inv(net, m) && Enabled(net, m, Deliver(l, saved))
    ensures WorkLeft(net, Next(net, m, Deliver(l, saved))) < WorkLeft(net, m)
  {
    var m' := Next(net, m, Deliver(l, saved));
    DeliverKeepsInv(net, m, l, saved);
    assert Unsent(net, m') == Unsent(net, m);
    assert (l, |m.wire[l]| - 1) in OnTheWay(net, m);
    assert OnTheWay(net, m') == OnTheWay(net, m) - {(l, |m.wire[l]| - 1)};
  }

  lemma CalmStepUses(net: Net, m: Mesh, step: Step)
    requires Inv(net, m) && Enabled(net, m, step) && Calm(net, m, step)
    ensures Inv(net, Next(net, m, step))
    ensures WorkLeft(net, Next(net, m, step)) <= WorkLeft(net, m)
    ensures Works(m, step) ==> WorkLeft(net, Next(net, m, step)) < WorkLeft(net, m)
  {
    StepKeepsInv(net, m, step);
    match step
    case GatewayPoll(l) => if Due(m, l).Some? { PushUses(net, m, l); }
    case Deliver(l, saved) => DeliveryUses(net, m, l, saved);
    case Relay(h, clip, saved) =>
      var m' := Next(net, m, step);
      assert Unsent(net, m') == Unsent(net, m) && OnTheWay(net, m') == OnTheWay(net, m);
    case _ =>
  }

  // ---- runs in which nothing new is copied ----

  /** A part of a run from a mesh on, with calm steps only. */
  ghost predicate CalmRun(net: Net, run: seq<Mesh>, steps: seq<Step>) {
    && |run| == |steps| + 1 && Inv(net, run[0])
    && (forall i :: 0 <= i < |run| ==> Shaped(net, run[i]))
    && (forall i :: 0 <= i < |steps| ==> Enabled(net, run[i], steps[i]) && Calm(net, run[i], steps[i]) && run[i + 1] == Next(net, run[i], steps[i]))
  }

  /** How many of the first n steps push or deliver. */
  ghost function WorkDone(run: seq<Mesh>, steps: seq<Step>, n: nat): nat
    requires |run| == |steps| + 1 && n <= |steps|
  {
    if n == 0 then 0 else WorkDone(run, steps, n - 1) + if Works(run[n - 1], steps[n - 1]) then 1 else 0
  }

  /** Once copying stops, at most this many pushes and deliveries are left, in
      whatever order polls, deliveries and relays come. */
  lemma {:induction false} WorkIsBounded(net: Net, run: seq<Mesh>, steps: seq<Step>, n: nat)
    requires CalmRun(net, run, steps) && n <= |steps|
    ensures Inv(net, run[n])
    ensures WorkDone(run, steps, n) + WorkLeft(net, run[n]) <= WorkLeft(net, run[0])
  {
    if n > 0 {
      WorkIsBounded(net, run, steps, n - 1);
      CalmStepUses(net, run[n - 1], steps[n - 1]);
    }
  }

  /** As long as the mesh is not quiescent some push or delivery can be made. */
  lemma SomeWork(net: Net, m: Mesh, path: string) returns (step: Step)
    requires Inv(net, m) && !Quiescent(net, m) && path != "" && net.paths(path)
    ensures Enabled(net, m, step) && Calm(net, m, step) && Works(m, step)
  {
    var l :| l in net.links && !(Due(m, l) == None && m.wire[l] == []);
    step := if m.wire[l] != [] then Deliver(l, Some(path)) else GatewayPoll(l);
  }

  /** When no work is left the mesh is quiescent. */
  lemma NoWorkIsQuiet(net: Net, m: Mesh, path: string)
    requires Inv(net, m) && WorkLeft(net, m) == 0 && path != "" && net.paths(path)
    ensures Quiescent(net, m)
  {
    if !Quiescent(net, m) {
      var step := SomeWork(net, m, path);
      CalmStepUses(net, m, step);
    }
  }

  /** From every mesh of every run pushes and deliveries alone bring it to rest,
      within the bound. */
  lemma {:induction false} Settles(net: Net, m: Mesh, path: string) returns (run: seq<Mesh>, steps: seq<Step>)
    requires Inv(net, m) && path != "" && net.paths(path)
    ensures CalmRun(net, run, steps) && run[0] == m && |steps| <= WorkLeft(net, m)
    ensures Quiescent(net, run[|steps|])
    decreases WorkLeft(net, m)
  {
    if Quiescent(net, m) {
      RestIsCalm(net, m);
      run, steps := [m], [];
    } else {
      var step := SomeWork(net, m, path);
      CalmStepUses(net, m, step);
      var rest, more := Settles(net, Next(net, m, step), path);
      run, steps := [m] + rest, [step] + more;
      CalmRunBegins(net, m, step, rest, more);
      assert run[|steps|] == rest[|more|];
    }
  }

  lemma RestIsCalm(net: Net, m: Mesh)
    requires Inv(net, m)
    ensures CalmRun(net, [m], [])
  {
  }

  lemma CalmRunBegins(net: Net, m: Mesh, step: Step, rest: seq<Mesh>, more: seq<Step>)
    requires Inv(net, m) && Enabled(net, m, step) && Calm(net, m, step)
    requires CalmRun(net, rest, more) && rest[0] == Next(net, m, step)
    ensures CalmRun(net, [m] + rest, [step] + more)
  {
    var run, steps := [m] + rest, [step] + more;
    forall i | 0 <= i < |run|
      ensures Shaped(net, run[i])
    {
      if i > 0 { assert run[i] == rest[i - 1]; }
    }
    forall i | 0 <= i < |steps|
      ensures Enabled(net, run[i], steps[i]) && Calm(net, run[i], steps[i]) && run[i + 1] == Next(net, run[i], steps[i])
    {
      if i > 0 { assert run[i] == rest[i - 1] && steps[i] == more[i - 1] && run[i + 1] == rest[i]; }
    }
  }

  /** What happens in any run after copying stops: as long as it goes on pushing
      and delivering it makes at most WorkLeft such steps, and when it can make
      none any more, hosts joined by a path hold the same, newest clip. */
  lemma RestAgrees(net: Net, run: seq<Mesh>, steps: seq<Step>, n: nat, after: seq<Mesh>, more: seq<Step>, path: seq<string>, a: string, b: string)
    requires IsRun(net, run, steps) && n < |run|
    requires CalmRun(net, after, more) && after[0] == run[n]
    requires Quiescent(net, after[|more|]) && IsPath(net, path, a, b)
    ensures WorkDone(after, more, |more|) <= WorkLeft(net, run[n])
    ensures b in net.names && after[|more|].hosts[a].current.content == after[|more|].hosts[b].current.content
    ensures forall k :: k in after[|more|].accepted[b] ==> k.content.ts <= after[|more|].hosts[a].current.content.ts
  {
    RunKeepsInv(net, run, steps, n);
    WorkIsBounded(net, after, more, |more|);
    var m := after[|more|];
    PathAgrees(net, m, path, a, b);
    assert HostFine(net, m, a) && HostFine(net, m, b);
  }
}
