/** The roster walk of a mesh heal: breadth first from a seed, through the peers of
    the hosts that could be read (internal/cli/mesh_heal_roster.go). */
module Rosters {
  import opened Wrappers

  datatype Endpoint = Endpoint(id: string, sshUser: string, sshHost: string, sshPort: int, installPath: string)

  datatype Report = Report(origin: string, peers: seq<Endpoint>)

  /** Peers without a locator cannot be reached. */
  predicate Located(ep: Endpoint) {
    ep.id != "" && ep.sshHost != ""
  }

  // ---- what can be reached ----

  /** Contacting a host: none when it cannot be trusted or read. */
  function Contact(trust: Endpoint -> bool, read: Endpoint -> Option<Report>, ep: Endpoint): Option<Report> {
    if trust(ep) then read(ep) else None
  }

  /** Trust and reading depend only on the host's id. */
  ghost predicate ById(trust: Endpoint -> bool, read: Endpoint -> Option<Report>, contact: string -> Option<Report>) {
    forall ep :: Contact(trust, read, ep) == contact(ep.id)
  }

  /** Every peer that any host reports is one of finitely many. */
  ghost predicate Within(contact: string -> Option<Report>, universe: set<string>) {
    forall id, i :: contact(id).Some? && 0 <= i < |contact(id).value.peers| ==> contact(id).value.peers[i].id in universe
  }

  /** Host b is a locator-bearing peer of a host a that can be read. */
  predicate Leads(contact: string -> Option<Report>, a: string, b: string) {
    contact(a).Some? && exists i :: 0 <= i < |contact(a).value.peers| && Located(contact(a).value.peers[i]) && contact(a).value.peers[i].id == b
  }

  predicate Seeded(seed: seq<Endpoint>, id: string) {
    exists i :: 0 <= i < |seed| && Located(seed[i]) && seed[i].id == id
  }

  /** A chain of hosts from the seed, avoiding the local one. */
  predicate IsPath(contact: string -> Option<Report>, seed: seq<Endpoint>, selfID: string, path: seq<string>) {
    && path != [] && Seeded(seed, path[0])
    && (forall i :: 0 <= i < |path| ==> path[i] != selfID)
    && (forall i :: 0 <= i < |path| - 1 ==> Leads(contact, path[i], path[i + 1]))
  }

  ghost predicate Reachable(contact: string -> Option<Report>, seed: seq<Endpoint>, selfID: string, id: string) {
    exists path :: IsPath(contact, seed, selfID, path) && path[|path| - 1] == id
  }

  lemma SeedIsReachable(contact: string -> Option<Report>, seed: seq<Endpoint>, selfID: string, id: string)
    requires Seeded(seed, id) && id != selfID
    ensures Reachable(contact, seed, selfID, id)
  {
    assert IsPath(contact, seed, selfID, [id]);
  }

  lemma PeerIsReachable(contact: string -> Option<Report>, seed: seq<Endpoint>, selfID: string, a: string, b: string)
    requires Reachable(contact, seed, selfID, a) && Leads(contact, a, b) && b != selfID
    ensures Reachable(contact, seed, selfID, b)
  {
    var path :| IsPath(contact, seed, selfID, path) && path[|path| - 1] == a;
    var longer := path + [b];
    forall i | 0 <= i < |longer| - 1
      ensures Leads(contact, longer[i], longer[i + 1])
    {
      if i < |path| - 1 {
        assert Leads(contact, path[i], path[i + 1]);
      }
    }
    assert IsPath(contact, seed, selfID, longer);
  }

  /** A set that holds the seed and is closed holds everything reachable. */
  ghost predicate Closed(contact: string -> Option<Report>, seed: seq<Endpoint>, selfID: string, ids: set<string>) {
    && (forall id :: Seeded(seed, id) && id != selfID ==> id in ids)
    && (forall a, b :: a in ids && Leads(contact, a, b) && b != selfID ==> b in ids)
  }

  lemma {:induction false} PathStaysInside(contact: string -> Option<Report>, seed: seq<Endpoint>, selfID: string, ids: set<string>, path: seq<string>, i: nat)
    requires Closed(contact, seed, selfID, ids) && IsPath(contact, seed, selfID, path) && i < |path|
    ensures path[i] in ids
  {
    if i > 0 {
      PathStaysInside(contact, seed, selfID, ids, path, i - 1);
      assert Leads(contact, path[i - 1], path[i]);
    }
  }

  // ---- the walk ----

  class Walk {
    const selfID: string
    var seen: set<string>
    var queue: seq<Endpoint>
    var reports: map<string, Report>
    var endpoints: map<string, Endpoint>
    var unreachable: seq<string>
    ghost var attempts: seq<string>

    constructor (selfID: string)
      ensures this.selfID == selfID && seen == (if selfID == "" then {} else {selfID})
      ensures queue == [] && reports == map[] && endpoints == map[] && unreachable == [] && attempts == []
    {
      this.selfID := selfID;
      seen := if selfID == "" then {} else {selfID};
      queue, reports, endpoints, unreachable, attempts := [], map[], map[], [], [];
    }

    function Queued(): set<string>
      reads this
    {
      set i | 0 <= i < |queue| :: queue[i].id
    }

    ghost function Attempted(): set<string>
      reads this
    {
      set i | 0 <= i < |attempts| :: attempts[i]
    }

    /** Every host seen is the local one, waiting, or attempted once. */
    ghost predicate QueueOk(contact: string -> Option<Report>, seed: seq<Endpoint>)
      reads this
    {
      && (selfID != "" ==> selfID in seen)
      && seen == Queued() + Attempted() + (if selfID == "" then {} else {selfID})
      && Queued() !! Attempted() && selfID !in Queued() && selfID !in Attempted()
      && (forall i, j :: 0 <= i < j < |queue| ==> queue[i].id != queue[j].id)
      && (forall i, j :: 0 <= i < j < |attempts| ==> attempts[i] != attempts[j])
      && (forall i :: 0 <= i < |queue| ==> Located(queue[i]))
      && (forall id :: id in Queued() + Attempted() ==> Reachable(contact, seed, selfID, id))
    }

    /** The given hosts were attempted: each was read or lost. */
    ghost predicate ResultsOk(contact: string -> Option<Report>, done: set<string>)
      reads this
    {
      && reports.Keys !! Lost() && reports.Keys + Lost() == done
      && endpoints.Keys == reports.Keys
      && (forall id :: id in reports ==> contact(id) == Some(reports[id]))
    }

    ghost predicate Valid(contact: string -> Option<Report>, seed: seq<Endpoint>)
      reads this
    {
      QueueOk(contact, seed) && ResultsOk(contact, Attempted())
    }

    /** Note a host that was not seen before. */
    method Enqueue(ep: Endpoint, ghost contact: string -> Option<Report>, ghost seed: seq<Endpoint>)
      requires Valid(contact, seed)
      requires Located(ep) && ep.id != selfID ==> Reachable(contact, seed, selfID, ep.id)
      modifies this`seen, this`queue
      ensures Valid(contact, seed)
      ensures seen == if Located(ep) then old(seen) + {ep.id} else old(seen)
      ensures |queue| - |old(queue)| == if Located(ep) && ep.id !in old(seen) then 1 else 0
    {
      if ep.id == "" || ep.sshHost == "" || ep.id in seen {
        return;
      }
      ghost var before := queue;
      seen := seen + {ep.id};
      queue := queue + [ep];
      assert Queued() == old(Queued()) + {ep.id} by {
        assert forall i :: 0 <= i < |before| ==> queue[i] == before[i];
        assert queue[|before|] == ep;
      }
    }

    /** The hosts that could not be trusted or read. */
    function Lost(): set<string>
      reads this
    {
      set i | 0 <= i < |unreachable| :: unreachable[i]
    }

    /** Take the next host of the queue. */
    method Pop(ghost contact: string -> Option<Report>, ghost seed: seq<Endpoint>) returns (ep: Endpoint)
      requires QueueOk(contact, seed) && queue != []
      modifies this`queue, this`attempts
      ensures QueueOk(contact, seed) && ep == old(queue)[0] && queue == old(queue)[1..] && attempts == old(attempts) + [ep.id]
      ensures Attempted() == old(Attempted()) + {ep.id} && ep.id !in old(Attempted())
    {
      ep := queue[0];
      ghost var before, tried := queue, attempts;
      queue := queue[1..];
      attempts := attempts + [ep.id];
      assert Queued() == old(Queued()) - {ep.id} by {
        assert forall i :: 0 <= i < |queue| ==> queue[i] == before[i + 1];
        assert forall i :: 0 < i < |before| ==> before[i] == queue[i - 1];
      }
      assert Attempted() == old(Attempted()) + {ep.id} by {
        assert forall i :: 0 <= i < |tried| ==> attempts[i] == tried[i];
        assert attempts[|tried|] == ep.id;
      }
    }

    method NoteLost(id: string, ghost contact: string -> Option<Report>, ghost done: set<string>)
      requires ResultsOk(contact, done) && id !in done
      modifies this`unreachable
      ensures ResultsOk(contact, done + {id})
    {
      ghost var lost := unreachable;
      unreachable := unreachable + [id];
      assert Lost() == old(Lost()) + {id} by {
        assert forall i :: 0 <= i < |lost| ==> unreachable[i] == lost[i];
        assert unreachable[|lost|] == id;
      }
    }

    /** Contact the next host of the queue. */
    method Step(trust: Endpoint -> bool, read: Endpoint -> Option<Report>, ghost contact: string -> Option<Report>, ghost seed: seq<Endpoint>)
      returns (peers: seq<Endpoint>, ghost id: string)
      requires Valid(contact, seed) && queue != []
      requires ById(trust, read, contact)
      modifies this`queue, this`attempts, this`reports, this`endpoints, this`unreachable
      ensures Valid(contact, seed) && seen == old(seen)
      ensures id == old(queue)[0].id && queue == old(queue)[1..] && attempts == old(attempts) + [id]
      ensures peers == if contact(id).Some? then contact(id).value.peers else []
    {
      ghost var done := Attempted();
      var ep := Pop(contact, seed);
      id := ep.id;
      assert Contact(trust, read, ep) == contact(id);
      if !trust(ep) || read(ep).None? {
        NoteLost(ep.id, contact, done);
        return [], id;
      }
      var report := read(ep).value;
      reports := reports[ep.id := report];
      endpoints := endpoints[ep.id := ep];
      return report.peers, id;
    }

    /** Enqueue a list of hosts. */
    method EnqueueAll(eps: seq<Endpoint>, ghost contact: string -> Option<Report>, ghost seed: seq<Endpoint>, ghost universe: set<string>)
      requires Valid(contact, seed)
      requires forall i :: 0 <= i < |eps| ==> eps[i].id in universe
      requires forall i :: 0 <= i < |eps| && Located(eps[i]) && eps[i].id != selfID ==> Reachable(contact, seed, selfID, eps[i].id)
      modifies this`seen, this`queue
      ensures Valid(contact, seed) && old(seen) <= seen
      ensures forall i :: 0 <= i < |eps| && Located(eps[i]) ==> eps[i].id in seen
      ensures seen == old(seen) ==> |queue| == |old(queue)|
      ensures seen - old(seen) <= universe
    {
      for i := 0 to |eps|
        invariant Valid(contact, seed) && old(seen) <= seen && seen - old(seen) <= universe
        invariant forall j :: 0 <= j < i && Located(eps[j]) ==> eps[j].id in seen
        invariant seen == old(seen) ==> |queue| == |old(queue)|
      {
        Enqueue(eps[i], contact, seed);
      }
    }

    /** The seed and the peers of every host attempted have been seen. */
    ghost predicate Covers(contact: string -> Option<Report>, seed: seq<Endpoint>)
      reads this
    {
      && (forall id :: Seeded(seed, id) ==> id in seen)
      && (forall a, b :: a in Attempted() && Leads(contact, a, b) ==> b in seen)
    }

    /** One round of the walk: contact the next host and note its peers. */
    method Advance(trust: Endpoint -> bool, read: Endpoint -> Option<Report>, ghost contact: string -> Option<Report>,
                   ghost seed: seq<Endpoint>, ghost universe: set<string>)
      requires Valid(contact, seed) && Covers(contact, seed) && queue != []
      requires ById(trust, read, contact)
      requires Within(contact, universe)
      modifies this`seen, this`queue, this`attempts, this`reports, this`endpoints, this`unreachable
      ensures Valid(contact, seed) && Covers(contact, seed)
      ensures old(seen) <= seen && seen - old(seen) <= universe && (seen == old(seen) ==> |queue| < |old(queue)|)
    {
      ghost var attempted, before := Attempted(), attempts;
      var peers, id := Step(trust, read, contact, seed);
      ghost var covered := seen;
      PeersReachable(contact, seed, id, peers);
      EnqueueAll(peers, contact, seed, universe);
      assert Attempted() == attempted + {id} by {
        assert forall i :: 0 <= i < |before| ==> attempts[i] == before[i];
        assert attempts[|before|] == id;
      }
      forall a, b | a in Attempted() && Leads(contact, a, b)
        ensures b in seen
      {
        if a in attempted {
          assert b in covered;
        }
      }
    }

    lemma PeersReachable(contact: string -> Option<Report>, seed: seq<Endpoint>, id: string, peers: seq<Endpoint>)
      requires Reachable(contact, seed, selfID, id) && peers == if contact(id).Some? then contact(id).value.peers else []
      ensures forall i :: 0 <= i < |peers| && Located(peers[i]) && peers[i].id != selfID ==> Reachable(contact, seed, selfID, peers[i].id)
    {
      forall i | 0 <= i < |peers| && Located(peers[i]) && peers[i].id != selfID
        ensures Reachable(contact, seed, selfID, peers[i].id)
      {
        assert Leads(contact, id, peers[i].id);
        PeerIsReachable(contact, seed, selfID, id, peers[i].id);
      }
    }

    /** With nothing left to visit, exactly the reachable hosts were attempted. */
    lemma AllVisited(contact: string -> Option<Report>, seed: seq<Endpoint>)
      requires Valid(contact, seed) && Covers(contact, seed) && queue == []
      ensures forall id :: id in Attempted() <==> Reachable(contact, seed, selfID, id)
    {
      assert Queued() == {};
      assert Closed(contact, seed, selfID, Attempted()) by {
        forall id | Seeded(seed, id) && id != selfID
          ensures id in Attempted()
        {
          assert id in seen;
        }
        forall a, b | a in Attempted() && Leads(contact, a, b) && b != selfID
          ensures b in Attempted()
        {
          assert b in seen;
        }
      }
      forall id
        ensures id in Attempted() <==> Reachable(contact, seed, selfID, id)
      {
        if Reachable(contact, seed, selfID, id) {
          var path :| IsPath(contact, seed, selfID, path) && path[|path| - 1] == id;
          PathStaysInside(contact, seed, selfID, Attempted(), path, |path| - 1);
        }
      }
    }
  }

  lemma SeedsReachable(contact: string -> Option<Report>, seed: seq<Endpoint>, selfID: string)
    ensures forall i :: 0 <= i < |seed| && Located(seed[i]) && seed[i].id != selfID ==> Reachable(contact, seed, selfID, seed[i].id)
  {
    forall i | 0 <= i < |seed| && Located(seed[i]) && seed[i].id != selfID
      ensures Reachable(contact, seed, selfID, seed[i].id)
    {
      SeedIsReachable(contact, seed, selfID, seed[i].id);
    }
  }

  /** The walk computes the closure: it ends, attempts each host at most once and
      never the local one, and its reports and failures together are exactly the
      hosts reachable from the seed. */
  method DiscoverRoster(seed: seq<Endpoint>, selfID: string, trust: Endpoint -> bool, read: Endpoint -> Option<Report>,
                        ghost contact: string -> Option<Report>, ghost universe: set<string>) returns (walk: Walk)
    requires ById(trust, read, contact)
    requires forall i :: 0 <= i < |seed| ==> seed[i].id in universe
    requires Within(contact, universe)
    ensures fresh(walk)
    ensures walk.reports.Keys !! walk.Lost() && walk.reports.Keys + walk.Lost() == walk.Attempted()
    ensures forall id :: id in walk.Attempted() <==> Reachable(contact, seed, selfID, id)
    ensures forall id :: id in walk.reports ==> contact(id) == Some(walk.reports[id])
    ensures forall i, j :: 0 <= i < j < |walk.attempts| ==> walk.attempts[i] != walk.attempts[j]
    ensures selfID !in walk.Attempted()
  {
    walk := new Walk(selfID);
    SeedsReachable(contact, seed, selfID);
    walk.EnqueueAll(seed, contact, seed, universe);
    while walk.queue != []
      invariant walk.Valid(contact, seed) && walk.Covers(contact, seed) && walk.selfID == selfID
      decreases universe - walk.seen, |walk.queue|
    {
      walk.Advance(trust, read, contact, seed, universe);
    }
    walk.AllVisited(contact, seed);
  }
}
