/** How often a host relays a clip, and why the flood of one clip ends
    (internal/daemon/seen.go, internal/daemon/daemon.go). */
module Floods {
  import opened Wrappers
  import opened Hostnames
  import opened SeenSets
  import opened Daemons

  // ---- one host, any events ----

  datatype Event =
    | Polls(read: Option<Content>, minted: string, saved: Option<string>)
    | Receives(clip: Content, from: string, saved: Option<string>, wrote: bool)
    | Restores(entry: Content, imagePath: string, minted: string, wrote: bool)

  function After(h: Host, paths: StorePaths, e: Event): Host {
    match e
    case Polls(read, minted, saved) => Polled(h, paths, read, minted, saved)
    case Receives(clip, from, saved, wrote) => Received(h, paths, clip, from, saved, wrote)
    case Restores(entry, imagePath, minted, wrote) => Restored(h, entry, imagePath, minted, wrote)
  }

  /** Does the event make the host accept the clip from a peer and pass it on? */
  predicate RelaysClip(h: Host, paths: StorePaths, e: Event, id: string) {
    && e.Receives? && e.clip.id == id
    && ReceivePublishes(h, paths, e.clip, e.from, e.saved).Some?
  }

  /** The IDs newly recorded by the event: none or one. */
  function Records(h: Host, paths: StorePaths, e: Event): seq<string> {
    var h' := After(h, paths, e);
    if h'.seen == h.seen || h'.seen == [] then [] else [h'.seen[|h'.seen| - 1]]
  }

  /** A run of one host: its states, the events between them, and what each
      event recorded. */
  ghost predicate IsHostRun(paths: StorePaths, hs: seq<Host>, es: seq<Event>, recs: seq<seq<string>>) {
    && |hs| == |es| + 1 == |recs| + 1
    && hs[0].seen == []
    && (forall i :: 0 <= i < |es| ==> hs[i + 1] == After(hs[i], paths, es[i]) && recs[i] == Records(hs[i], paths, es[i]))
  }

  /** Everything recorded by the first n events. */
  ghost function Log(recs: seq<seq<string>>, n: nat): seq<string>
    requires n <= |recs|
  {
    if n == 0 then [] else Log(recs, n - 1) + recs[n - 1]
  }

  /** An event leaves the seen set alone or records one ID in it. */
  lemma RecordsOne(h: Host, paths: StorePaths, e: Event)
    ensures After(h, paths, e).seen == h.seen ||
            exists id :: id !in h.seen && After(h, paths, e).seen == Recorded(h.seen, id) && Records(h, paths, e) == [id]
  {
    var h' := After(h, paths, e);
    if h'.seen != h.seen {
      var id := match e
        case Polls(_, minted, _) => minted
        case Receives(clip, _, _, _) => clip.id
        case Restores(_, _, minted, _) => minted;
      assert h'.seen == Recorded(h.seen, id);
    }
  }

  lemma {:induction false} SeenIsWindow(paths: StorePaths, hs: seq<Host>, es: seq<Event>, recs: seq<seq<string>>, n: nat)
    requires IsHostRun(paths, hs, es, recs) && n <= |es|
    ensures Spaced(Log(recs, n))
    ensures hs[n].seen == Window(Log(recs, n))
  {
    if n > 0 {
      SeenIsWindow(paths, hs, es, recs, n - 1);
      var log := Log(recs, n - 1);
      RecordsOne(hs[n - 1], paths, es[n - 1]);
      if hs[n].seen != hs[n - 1].seen {
        var id :| id !in hs[n - 1].seen && hs[n].seen == Recorded(hs[n - 1].seen, id) && Records(hs[n - 1], paths, es[n - 1]) == [id];
        RecordedWindow(log, id);
        SpacedExtends(log, id);
      }
    }
  }

  lemma SpacedExtends(log: seq<string>, id: string)
    requires Spaced(log) && id !in Window(log)
    ensures Spaced(log + [id])
  {
    forall i | 0 <= i < |log| && |log| - i <= SEEN_CAP
      ensures log[i] != id
    {
      StaysInWindow(log, i);
    }
  }

  lemma {:induction false} LogGrows(recs: seq<seq<string>>, i: nat, j: nat)
    requires i <= j <= |recs|
    ensures Log(recs, i) <= Log(recs, j)
    decreases j
  {
    if i < j {
      LogGrows(recs, i, j - 1);
    }
  }

  /** A relayed clip is recorded by the event that relays it, as the newest entry. */
  lemma RelayRecords(h: Host, paths: StorePaths, e: Event, id: string)
    requires RelaysClip(h, paths, e, id)
    ensures id !in h.seen
    ensures Records(h, paths, e) == [id]
  {
    var h' := After(h, paths, e);
    assert h'.seen == Recorded(h.seen, id);
    assert h'.seen[|h'.seen| - 1] == id;
  }

  /** A host relays the same clip twice only after recording SEEN_CAP other IDs,
      all different, in between. */
  lemma RelaysFarApart(paths: StorePaths, hs: seq<Host>, es: seq<Event>, recs: seq<seq<string>>, i: nat, j: nat, id: string)
    requires IsHostRun(paths, hs, es, recs) && i < j < |es|
    requires RelaysClip(hs[i], paths, es[i], id) && RelaysClip(hs[j], paths, es[j], id)
    ensures
      var start, log := |Log(recs, i + 1)|, Log(recs, j);
      && start + SEEN_CAP <= |log|
      && (forall a :: start <= a < start + SEEN_CAP ==> log[a] != id)
      && (forall a, b :: start <= a < b < start + SEEN_CAP ==> log[a] != log[b])
  {
    var log := Log(recs, j);
    RelayRecords(hs[i], paths, es[i], id);
    RelayRecords(hs[j], paths, es[j], id);
    SeenIsWindow(paths, hs, es, recs, j);
    LogGrows(recs, i + 1, j);
    var p := |Log(recs, i)|;
    assert Log(recs, i + 1)[p] == id;
    assert log[p] == id;
    EvictedAfterFullWindow(log, p);
  }

  // ---- one clip, the whole mesh ----

  /** Hosts, and the copies of the clip under way to each (by receiver). */
  datatype Flood = Flood(hosts: map<string, Host>, pending: multiset<string>, relayed: multiset<string>)

  /** peers gives each host's peer list, as its session list has it. */
  datatype Topology = Topology(names: seq<string>, peers: map<string, seq<string>>) {
    ghost predicate WellFormed() {
      && peers.Keys == (set h | h in names)
      && (forall h, p :: h in peers && p in peers[h] ==> p in names)
    }
  }

  /** The receivers of a relay: all peers but those matching the origin. */
  function Receivers(peers: seq<string>, skip: string): multiset<string> {
    if peers == [] then multiset{}
    else if skip != "" && HostsMatch(peers[0], skip) then Receivers(peers[1..], skip)
    else multiset{peers[0]} + Receivers(peers[1..], skip)
  }

  lemma {:induction false} ReceiversBound(peers: seq<string>, skip: string)
    ensures |Receivers(peers, skip)| <= |peers|
    ensures forall p :: p in Receivers(peers, skip) ==> p in peers
  {
    if peers != [] {
      ReceiversBound(peers[1..], skip);
      assert forall p :: p in peers[1..] ==> p in peers;
    }
  }

  ghost predicate FloodOk(t: Topology, f: Flood) {
    && t.WellFormed()
    && f.hosts.Keys == t.peers.Keys
    && (forall h :: h in f.pending ==> h in f.hosts)
  }

  /** Host h handles one copy; accepted copies go on to its peers. */
  function Spread(t: Topology, paths: StorePaths, f: Flood, h: string, clip: Content, origin: string, saved: Option<string>): Flood
    requires h in f.hosts && h in t.peers
  {
    var host := f.hosts[h];
    var hosts' := f.hosts[h := Received(host, paths, clip, origin, saved, true)];
    if ReceivePublishes(host, paths, clip, origin, saved).Some?
    then Flood(hosts', f.pending - multiset{h} + Receivers(t.peers[h], origin), f.relayed + multiset{h})
    else Flood(hosts', f.pending - multiset{h}, f.relayed)
  }

  /** Runs of n deliveries of the clip. */
  ghost predicate IsFlood(t: Topology, paths: StorePaths, clip: Content, origin: string, run: seq<Flood>, order: seq<string>, saves: seq<Option<string>>) {
    && |run| == |order| + 1 == |saves| + 1
    && (forall i :: 0 <= i < |run| ==> FloodOk(t, run[i]))
    && run[0].relayed == multiset{}
    && (forall i :: 0 <= i < |order| ==>
          order[i] in run[i].pending && run[i + 1] == Spread(t, paths, run[i], order[i], clip, origin, saves[i]))
  }

  /** The links that hosts still to record the clip could use. */
  ghost function Fuel(t: Topology, f: Flood, id: string, n: nat): nat
    requires n <= |t.names| && FloodOk(t, f)
  {
    if n == 0 then 0
    else
      var h := t.names[n - 1];
      Fuel(t, f, id, n - 1) + (if id in f.hosts[h].seen then 0 else |t.peers[h]|)
  }

  lemma {:induction false} FuelAfter(t: Topology, f: Flood, f': Flood, h: string, id: string, n: nat)
    requires FloodOk(t, f) && FloodOk(t, f') && n <= |t.names|
    requires h in f.hosts && f'.hosts == f.hosts[h := f'.hosts[h]]
    requires id in f.hosts[h].seen ==> id in f'.hosts[h].seen
    ensures Fuel(t, f', id, n) <= Fuel(t, f, id, n)
    ensures h in t.names[..n] && id !in f.hosts[h].seen && id in f'.hosts[h].seen ==>
              Fuel(t, f', id, n) + |t.peers[h]| <= Fuel(t, f, id, n)
  {
    if n > 0 {
      FuelAfter(t, f, f', h, id, n - 1);
    }
  }

  /** A host that has the clip as seen ignores it; one that passes it on had
      not seen it and has now. */
  lemma ReceivedSeen(h: Host, paths: StorePaths, clip: Content, origin: string, saved: Option<string>)
    ensures clip.id in h.seen ==> Received(h, paths, clip, origin, saved, true) == h && ReceivePublishes(h, paths, clip, origin, saved) == None
    ensures ReceivePublishes(h, paths, clip, origin, saved).Some? ==> clip.id in Received(h, paths, clip, origin, saved, true).seen
  {
    if clip.id !in h.seen {
      var next := Recorded(h.seen, clip.id);
      assert next[|next| - 1] == clip.id;
    }
  }

  /** One delivery: the clip stays recorded where it was, and copies under way
      plus usable links go down. */
  lemma SpreadDecreases(t: Topology, paths: StorePaths, f: Flood, h: string, clip: Content, origin: string, saved: Option<string>)
    requires FloodOk(t, f) && h in f.pending
    ensures
      var f' := Spread(t, paths, f, h, clip, origin, saved);
      && FloodOk(t, f')
      && |f'.pending| + Fuel(t, f', clip.id, |t.names|) < |f.pending| + Fuel(t, f, clip.id, |t.names|)
      && (f'.relayed == f.relayed || (f'.relayed == f.relayed + multiset{h} && clip.id !in f.hosts[h].seen && clip.id in f'.hosts[h].seen))
      && f'.hosts == f.hosts[h := f'.hosts[h]]
      && (clip.id in f.hosts[h].seen ==> clip.id in f'.hosts[h].seen)
  {
    var f' := Spread(t, paths, f, h, clip, origin, saved);
    ReceivedSeen(f.hosts[h], paths, clip, origin, saved);
    ReceiversBound(t.peers[h], origin);
    assert t.names[..|t.names|] == t.names;
    FuelAfter(t, f, f', h, clip.id, |t.names|);
  }

  /** Every host relays the clip at most once, and only while it holds it as seen. */
  lemma {:induction false} RelaysOnce(t: Topology, paths: StorePaths, clip: Content, origin: string, run: seq<Flood>, order: seq<string>, saves: seq<Option<string>>, n: nat, h: string)
    requires IsFlood(t, paths, clip, origin, run, order, saves) && n < |run| && h in t.peers
    ensures run[n].relayed[h] <= 1
    ensures run[n].relayed[h] == 1 ==> clip.id in run[n].hosts[h].seen
  {
    if n > 0 {
      RelaysOnce(t, paths, clip, origin, run, order, saves, n - 1, h);
      SpreadDecreases(t, paths, run[n - 1], order[n - 1], clip, origin, saves[n - 1]);
    }
  }

  /** The flood ends: a run is no longer than the copies under way at the start
      plus the links of the hosts that have not recorded the clip. */
  lemma {:induction false} FloodEnds(t: Topology, paths: StorePaths, clip: Content, origin: string, run: seq<Flood>, order: seq<string>, saves: seq<Option<string>>, n: nat)
    requires IsFlood(t, paths, clip, origin, run, order, saves) && n < |run|
    ensures n + |run[n].pending| + Fuel(t, run[n], clip.id, |t.names|)
              <= |run[0].pending| + Fuel(t, run[0], clip.id, |t.names|)
  {
    if n > 0 {
      FloodEnds(t, paths, clip, origin, run, order, saves, n - 1);
      SpreadDecreases(t, paths, run[n - 1], order[n - 1], clip, origin, saves[n - 1]);
    }
  }
}
