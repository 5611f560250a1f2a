/** The SSH sync manager's shared state and the operations made under its lock
    (internal/daemon/ssh_session.go). */
module SyncManagers {
  import opened Wrappers
  import opened Hostnames
  import opened Daemons
  import opened Gateways

  /** A configured outbound peer; equality of all fields decides whether a
      running session survives a refresh. */
  datatype Peer = Peer(
    id: string, user: string, host: string, port: int,
    privateKeyPath: string, knownHostsPath: string, gatewayPath: string,
    connectKeyID: string, directGateway: bool)

  datatype Status = NoStatus | Connecting | Attention | Waiting | Live | Syncing

  datatype Runtime = Runtime(
    peerID: string, active: bool, pending: bool, status: Status,
    lastConnect: int, lastAck: int, lastRecv: int, lastError: string, lastErrorTS: int)

  const NO_RUNTIME := Runtime("", false, false, NoStatus, 0, 0, 0, "", 0)

  function StatusOf(r: Runtime): Status {
    if r.active then (if r.pending then Syncing else Live)
    else if r.status.Connecting? then Connecting
    else if r.lastError != "" then Attention
    else Waiting
  }

  /** A session's peer, its one-slot queue, and whether its context was cancelled.
      Sessions are told apart by number: the Go code compares pointers. */
  datatype Session = Session(peer: Peer, slot: Option<Clip>, cancelled: bool)

  datatype Shared = Shared(
    peers: seq<Peer>,
    sessions: map<string, nat>,      // the current session of each peer
    pending: map<string, Clip>,
    runtime: map<string, Runtime>,
    started: bool,
    table: map<nat, Session>,        // every session ever started
    nextID: nat)

  function EmptyShared(peers: seq<Peer>): Shared {
    Shared(peers, map[], map[], map[], false, map[], 0)
  }

  ghost predicate WellFormed(s: Shared) {
    && (forall id :: id in s.sessions ==> s.sessions[id] in s.table && s.table[s.sessions[id]].peer.id == id)
    && (forall sid :: sid in s.table ==> sid < s.nextID)
  }

  predicate IsCurrent(s: Shared, sid: nat) {
    && sid in s.table
    && s.table[sid].peer.id in s.sessions
    && s.sessions[s.table[sid].peer.id] == sid
  }

  // ---- runtime marks ----

  function Named(runtime: map<string, Runtime>, id: string): Runtime {
    var r := if id in runtime then runtime[id] else NO_RUNTIME;
    if r.peerID == "" then r.(peerID := id) else r
  }

  function RuntimeOf(s: Shared, id: string): Runtime {
    Named(s.runtime, id)
  }

  function WithStatus(r: Runtime): Runtime {
    r.(status := StatusOf(r))
  }

  function MarkConnecting(s: Shared, id: string): Shared {
    s.(runtime := s.runtime[id := RuntimeOf(s, id).(active := false, pending := id in s.pending, status := Connecting)])
  }

  function MarkConnected(s: Shared, id: string, now: int): Shared {
    s.(runtime := s.runtime[id := WithStatus(RuntimeOf(s, id).(active := true, pending := id in s.pending, lastConnect := now, lastError := "", lastErrorTS := 0))])
  }

  function MarkPending(s: Shared, id: string, pending: bool): Shared {
    s.(runtime := s.runtime[id := WithStatus(RuntimeOf(s, id).(pending := pending || id in s.pending))])
  }

  function MarkAcked(s: Shared, id: string, now: int): Shared {
    s.(runtime := s.runtime[id := WithStatus(RuntimeOf(s, id).(active := true, pending := id in s.pending, lastAck := now, lastError := "", lastErrorTS := 0))])
  }

  function MarkReceived(s: Shared, id: string, now: int): Shared {
    s.(runtime := s.runtime[id := WithStatus(RuntimeOf(s, id).(active := true, pending := id in s.pending, lastRecv := now, lastError := "", lastErrorTS := 0))])
  }

  function MarkError(s: Shared, id: string, error: string, now: int): Shared {
    s.(runtime := s.runtime[id := RuntimeOf(s, id).(active := false, pending := id in s.pending, lastError := error, lastErrorTS := now, status := Attention)])
  }

  // ---- publish ----

  /** Peers that a publication leaves out, because they match its origin. */
  function SkipRule(skip: string): string -> bool {
    id => skip != "" && HostsMatch(id, skip)
  }

  function PeerIDs(peers: seq<Peer>): set<string> {
    set i | 0 <= i < |peers| :: peers[i].id
  }

  function Wanted(ids: set<string>, skips: string -> bool): set<string> {
    set id | id in ids && !skips(id)
  }

  /** The peers a publication goes to: the configured ones and those with a
      session, except the ones matching the origin to skip. */
  function Targets(s: Shared, skip: string): set<string> {
    Wanted(PeerIDs(s.peers) + s.sessions.Keys, SkipRule(skip))
  }

  lemma WantedMove(done: set<string>, ids: set<string>, id: string, skips: string -> bool)
    requires id in ids
    ensures (if skips(id) then done else done + {id}) + Wanted(ids - {id}, skips) == done + Wanted(ids, skips)
  {
  }

  lemma WantedRest(ids: set<string>, visited: set<string>, skips: string -> bool)
    ensures visited + Wanted(ids - visited, skips) == visited + Wanted(ids, skips)
  {
  }

  lemma WantedNone(done: set<string>, skips: string -> bool)
    ensures done + Wanted({}, skips) == done
  {
  }

  lemma WantedOneMore(peers: seq<Peer>, i: nat, skips: string -> bool)
    requires i < |peers|
    ensures Wanted(PeerIDs(peers[..i + 1]), skips) ==
            Wanted(PeerIDs(peers[..i]), skips) + (if skips(peers[i].id) then {} else {peers[i].id})
  {
    assert PeerIDs(peers[..i + 1]) == PeerIDs(peers[..i]) + {peers[i].id};
  }

  function PendingMarked(runtime: map<string, Runtime>, id: string): Runtime {
    WithStatus(Named(runtime, id).(pending := true))
  }

  function AllPending(pending: map<string, Clip>, clip: Clip, targets: set<string>): map<string, Clip> {
    map id | id in pending.Keys + targets :: if id in targets then clip else pending[id]
  }

  function AllMarked(runtime: map<string, Runtime>, targets: set<string>): map<string, Runtime> {
    map id | id in runtime.Keys + targets :: if id in targets then PendingMarked(runtime, id) else runtime[id]
  }

  function AllQueued(sessions: map<string, nat>, table: map<nat, Session>, clip: Clip, targets: set<string>): (r: map<nat, Session>)
    ensures r.Keys == table.Keys
  {
    map sid | sid in table ::
      var id := table[sid].peer.id;
      if id in targets && id in sessions && sessions[id] == sid then table[sid].(slot := Some(clip)) else table[sid]
  }

  /** The clip becomes pending for the given peers and takes over the queue slot
      of their current sessions. */
  function PublishedTo(s: Shared, clip: Clip, targets: set<string>): Shared {
    s.(pending := AllPending(s.pending, clip, targets),
       runtime := AllMarked(s.runtime, targets),
       table := AllQueued(s.sessions, s.table, clip, targets))
  }

  function Published(s: Shared, clip: Clip, skip: string): Shared {
    if |clip.content.bytes| > MAX_PAYLOAD_BYTES then s else PublishedTo(s, clip, Targets(s, skip))
  }

  /** One target, as the body of either publish loop handles it. */
  function PublishedOne(s: Shared, clip: Clip, id: string): Shared
    requires id in s.sessions ==> s.sessions[id] in s.table
  {
    var s' := MarkPending(s.(pending := s.pending[id := clip]), id, true);
    if id in s.sessions
    then s'.(table := s.table[s.sessions[id] := s.table[s.sessions[id]].(slot := Some(clip))])
    else s'
  }

  lemma PublishedKeeps(s: Shared, clip: Clip, targets: set<string>)
    requires WellFormed(s)
    ensures WellFormed(PublishedTo(s, clip, targets))
  {
  }

  lemma PublishedStep(s: Shared, clip: Clip, targets: set<string>, id: string)
    requires WellFormed(s)
    ensures PublishedOne(PublishedTo(s, clip, targets), clip, id) == PublishedTo(s, clip, targets + {id})
  {
    AllPendingStep(s.pending, clip, targets, id);
    AllMarkedStep(s.runtime, targets, id);
    AllQueuedStep(s, clip, targets, id);
  }

  lemma AllPendingStep(pending: map<string, Clip>, clip: Clip, targets: set<string>, id: string)
    ensures AllPending(pending, clip, targets)[id := clip] == AllPending(pending, clip, targets + {id})
  {
  }

  /** Marking a peer pending twice is marking it once. */
  lemma MarkedTwice(r: Runtime)
    ensures WithStatus(WithStatus(r).(pending := r.pending)) == WithStatus(r)
  {
  }

  lemma AllMarkedStep(runtime: map<string, Runtime>, targets: set<string>, id: string)
    ensures AllMarked(runtime, targets)[id := PendingMarked(AllMarked(runtime, targets), id)] == AllMarked(runtime, targets + {id})
  {
    MarkedTwice(Named(runtime, id).(pending := true));
  }

  lemma AllQueuedStep(s: Shared, clip: Clip, targets: set<string>, id: string)
    requires WellFormed(s)
    ensures
      var t := AllQueued(s.sessions, s.table, clip, targets);
      AllQueued(s.sessions, s.table, clip, targets + {id}) ==
        if id in s.sessions then t[s.sessions[id] := t[s.sessions[id]].(slot := Some(clip))] else t
  {
  }

  // ---- start and refresh ----

  function StartedPeer(s: Shared, peer: Peer): Shared {
    MarkConnecting(
      s.(sessions := s.sessions[peer.id := s.nextID],
         table := s.table[s.nextID := Session(peer, None, false)],
         nextID := s.nextID + 1),
      peer.id)
  }

  /** Sessions for the first n peers of the list. */
  function StartedAll(s: Shared, peers: seq<Peer>, n: nat): Shared
    requires n <= |peers|
  {
    if n == 0 then s else StartedPeer(StartedAll(s, peers, n - 1), peers[n - 1])
  }

  /** Sessions for the first n peers of the list that have none. */
  function StartedMissing(s: Shared, peers: seq<Peer>, n: nat): Shared
    requires n <= |peers|
  {
    if n == 0 then s
    else
      var s' := StartedMissing(s, peers, n - 1);
      if peers[n - 1].id in s'.sessions then s' else StartedPeer(s', peers[n - 1])
  }

  /** The entry of the list that a map built from it ends up with. */
  function LastWith(peers: seq<Peer>, id: string): Option<Peer> {
    if peers == [] then None
    else if peers[|peers| - 1].id == id then Some(peers[|peers| - 1])
    else LastWith(peers[..|peers| - 1], id)
  }

  predicate Survives(s: Shared, next: seq<Peer>, id: string)
    requires id in s.sessions && s.sessions[id] in s.table
  {
    LastWith(next, id) == Some(s.table[s.sessions[id]].peer)
  }

  /** Reviewed peers that the new list no longer has. */
  ghost function Gone(s: Shared, next: seq<Peer>, done: set<string>): set<string> {
    set id | id in s.sessions && id in done && LastWith(next, id) == None
  }

  /** The sessions in the given set have been looked at: those whose peer changed
      or is gone are cancelled and dropped; a gone peer is forgotten altogether. */
  ghost function Reviewed(s: Shared, next: seq<Peer>, done: set<string>): Shared
    requires WellFormed(s)
  {
    s.(peers := next,
       sessions := map id | id in s.sessions && (id in done ==> Survives(s, next, id)) :: s.sessions[id],
       pending := s.pending - Gone(s, next, done),
       runtime := s.runtime - Gone(s, next, done),
       table := map sid | sid in s.table ::
         if IsCurrent(s, sid) && s.table[sid].peer.id in done && !Survives(s, next, s.table[sid].peer.id)
         then s.table[sid].(cancelled := true) else s.table[sid])
  }

  ghost function Refreshed(s: Shared, next: seq<Peer>): Shared
    requires WellFormed(s)
  {
    var s' := Reviewed(s, next, s.sessions.Keys);
    if s.started then StartedMissing(s', next, |next|) else s'
  }

  function ReviewedOne(s: Shared, next: seq<Peer>, id: string): Shared
    requires id in s.sessions && s.sessions[id] in s.table
  {
    if Survives(s, next, id) then s
    else
      var sid := s.sessions[id];
      var s' := s.(table := s.table[sid := s.table[sid].(cancelled := true)], sessions := s.sessions - {id});
      if LastWith(next, id) == None then s'.(pending := s.pending - {id}, runtime := s.runtime - {id}) else s'
  }

  lemma ReviewedStep(s: Shared, next: seq<Peer>, done: set<string>, id: string)
    requires WellFormed(s) && id in s.sessions && id !in done
    ensures id in Reviewed(s, next, done).sessions && Reviewed(s, next, done).sessions[id] == s.sessions[id]
    ensures ReviewedOne(Reviewed(s, next, done), next, id) == Reviewed(s, next, done + {id})
  {
    assert Reviewed(s, next, done).table[s.sessions[id]] == s.table[s.sessions[id]];
    ReviewedSessions(s, next, done, id);
    ReviewedTable(s, next, done, id);
    ReviewedPending(s, next, done, id);
  }

  lemma ReviewedSessions(s: Shared, next: seq<Peer>, done: set<string>, id: string)
    requires WellFormed(s) && id in s.sessions && id !in done
    requires Reviewed(s, next, done).sessions[id] == s.sessions[id]
    ensures ReviewedOne(Reviewed(s, next, done), next, id).sessions == Reviewed(s, next, done + {id}).sessions
  {
  }

  lemma ReviewedTable(s: Shared, next: seq<Peer>, done: set<string>, id: string)
    requires WellFormed(s) && id in s.sessions && id !in done
    requires Reviewed(s, next, done).sessions[id] == s.sessions[id]
    ensures ReviewedOne(Reviewed(s, next, done), next, id).table == Reviewed(s, next, done + {id}).table
  {
  }

  lemma ReviewedPending(s: Shared, next: seq<Peer>, done: set<string>, id: string)
    requires WellFormed(s) && id in s.sessions && id !in done
    requires Reviewed(s, next, done).sessions[id] == s.sessions[id]
    ensures ReviewedOne(Reviewed(s, next, done), next, id).pending == Reviewed(s, next, done + {id}).pending
    ensures ReviewedOne(Reviewed(s, next, done), next, id).runtime == Reviewed(s, next, done + {id}).runtime
  {
    var gone, gone' := Gone(s, next, done), Gone(s, next, done + {id});
    assert gone' == if LastWith(next, id) == None then gone + {id} else gone;
    assert s.pending - gone - {id} == s.pending - (gone + {id});
    assert s.runtime - gone - {id} == s.runtime - (gone + {id});
  }

  /** Only new sessions were added: known ones, and everything pending, stay. */
  ghost predicate AddsSessions(s: Shared, s': Shared) {
    && WellFormed(s')
    && s'.pending == s.pending && s'.peers == s.peers && s'.started == s.started
    && s.nextID <= s'.nextID
    && (forall sid :: sid in s.table ==> sid in s'.table && s'.table[sid] == s.table[sid])
    && (forall sid :: sid in s'.table && sid !in s.table ==> s.nextID <= sid)
    && (forall id :: id in s.sessions ==> id in s'.sessions)
    && (forall id :: id in s'.sessions ==> (id in s.sessions && s'.sessions[id] == s.sessions[id]) || s.nextID <= s'.sessions[id])
  }

  lemma StartAdds(s: Shared, peer: Peer)
    requires WellFormed(s)
    ensures AddsSessions(s, StartedPeer(s, peer))
  {
  }

  lemma AddsTransitive(s: Shared, s': Shared, s'': Shared)
    requires AddsSessions(s, s') && AddsSessions(s', s'')
    ensures AddsSessions(s, s'')
  {
  }

  lemma {:induction false} StartedMissingAdds(s: Shared, peers: seq<Peer>, n: nat)
    requires WellFormed(s) && n <= |peers|
    ensures AddsSessions(s, StartedMissing(s, peers, n))
  {
    if n > 0 {
      StartedMissingAdds(s, peers, n - 1);
      var s' := StartedMissing(s, peers, n - 1);
      if peers[n - 1].id !in s'.sessions {
        StartAdds(s', peers[n - 1]);
        AddsTransitive(s, s', StartedPeer(s', peers[n - 1]));
      }
    }
  }

  lemma {:induction false} StartedAllAdds(s: Shared, peers: seq<Peer>, n: nat)
    requires WellFormed(s) && n <= |peers|
    ensures AddsSessions(s, StartedAll(s, peers, n))
  {
    if n > 0 {
      StartedAllAdds(s, peers, n - 1);
      var s' := StartedAll(s, peers, n - 1);
      StartAdds(s', peers[n - 1]);
      AddsTransitive(s, s', StartedPeer(s', peers[n - 1]));
    }
  }

  lemma StartedAllWellFormed(s: Shared, peers: seq<Peer>, n: nat)
    requires WellFormed(s) && n <= |peers|
    ensures WellFormed(StartedAll(s, peers, n)) && StartedAll(s, peers, n).peers == s.peers
  {
    StartedAllAdds(s, peers, n);
  }

  lemma ReviewedWellFormed(s: Shared, next: seq<Peer>)
    requires WellFormed(s)
    ensures WellFormed(Reviewed(s, next, s.sessions.Keys))
  {
  }

  lemma RefreshedWellFormed(s: Shared, next: seq<Peer>)
    requires WellFormed(s)
    ensures WellFormed(Refreshed(s, next))
  {
    var s' := Reviewed(s, next, s.sessions.Keys);
    ReviewedWellFormed(s, next);
    StartedMissingAdds(s', next, |next|);
  }

  // ---- pending ----

  /** The pending clip goes away when it carries the acknowledged ID. */
  function ClearedPending(s: Shared, id: string, clip: Clip): Shared {
    if id in s.pending && s.pending[id].content.id == clip.content.id
    then MarkPending(s.(pending := s.pending - {id}), id, false)
    else s
  }

  /** After a failed write the clip is pending again, unless another clip is. */
  function RememberedPending(s: Shared, id: string, clip: Clip): Shared {
    if id !in s.pending || s.pending[id].content.id == clip.content.id
    then s.(pending := s.pending[id := clip])
    else s
  }

  datatype AckStatus = NoState | Applied | IgnoredSeen | IgnoredEcho | IgnoredOlder | IgnoredConcealed | Rejected

  datatype Ack = Ack(seqNo: nat, id: string, status: AckStatus)

  predicate Qualifying(ack: Ack, clip: Clip) {
    if clip.content.id == "" then ack.id == "" && ack.status == NoState
    else ack.id == clip.content.id && (ack.status == Applied || ack.status == IgnoredSeen || ack.status == IgnoredEcho)
  }

  /** Does this ack take the clip off the pending list of a current session? */
  predicate Settles(ack: Ack, clip: Clip) {
    Qualifying(ack, clip) || (ack.status == Rejected && ack.id == clip.content.id)
  }

  /** The shared state after an ack for the given in-flight clip. */
  function AckedBy(s: Shared, sid: nat, clip: Clip, ack: Ack, now: int): Shared
    requires sid in s.table
  {
    var id := s.table[sid].peer.id;
    if !IsCurrent(s, sid) then s
    else if Qualifying(ack, clip) then MarkAcked(ClearedPending(s, id, clip), id, now)
    else if ack.status == Rejected && ack.id == clip.content.id then ClearedPending(s, id, clip)
    else s
  }

  class SyncManager {
    var peers: seq<Peer>
    var sessions: map<string, nat>
    var pending: map<string, Clip>
    var runtime: map<string, Runtime>
    var started: bool
    var table: map<nat, Session>
    var nextID: nat

    function View(): Shared
      reads this
    {
      Shared(peers, sessions, pending, runtime, started, table, nextID)
    }

    ghost predicate Valid()
      reads this
    {
      WellFormed(View())
    }

    constructor (peers: seq<Peer>)
      ensures View() == EmptyShared(peers) && Valid()
    {
      this.peers := peers;
      sessions, pending, runtime, table := map[], map[], map[], map[];
      started, nextID := false, 0;
    }

    method StartPeer(peer: Peer)
      requires Valid()
      modifies this
      ensures View() == StartedPeer(old(View()), peer) && Valid()
    {
      sessions := sessions[peer.id := nextID];
      table := table[nextID := Session(peer, None, false)];
      nextID := nextID + 1;
      var r := RuntimeOf(View(), peer.id);
      runtime := runtime[peer.id := r.(active := false, pending := peer.id in pending, status := Connecting)];
    }

    method Start()
      requires Valid()
      modifies this
      ensures Valid()
      ensures View() == if old(started) then old(View()) else StartedAll(old(View()).(started := true), old(peers), |old(peers)|)
    {
      if started {
        return;
      }
      started := true;
      var n := |peers|;
      ghost var s := View();
      for i := 0 to n
        invariant View() == StartedAll(s, s.peers, i)
      {
        StartedAllWellFormed(s, s.peers, i);
        StartPeer(peers[i]);
      }
      StartedAllWellFormed(s, s.peers, n);
    }

    method Publish(clip: Clip, skip: string)
      requires Valid()
      modifies this
      ensures Valid()
      ensures View() == Published(old(View()), clip, skip)
    {
      if |clip.content.bytes| > MAX_PAYLOAD_BYTES {
        return;
      }
      var visited := PublishToPeers(clip, SkipRule(skip));
      PublishToSessions(clip, SkipRule(skip), visited, old(View()));
      assert visited + Wanted(old(sessions).Keys, SkipRule(skip)) == Targets(old(View()), skip);
      PublishedKeeps(old(View()), clip, Targets(old(View()), skip));
    }

    /** The first publish loop: the configured peers. */
    method PublishToPeers(clip: Clip, skips: string -> bool) returns (visited: set<string>)
      requires Valid()
      modifies this
      ensures visited == Wanted(PeerIDs(old(peers)), skips)
      ensures View() == PublishedTo(old(View()), clip, visited)
    {
      ghost var s := View();
      visited := {};
      PublishedNone(s, clip);
      for i := 0 to |peers|
        invariant peers == s.peers
        invariant View() == PublishedTo(s, clip, visited)
        invariant visited == Wanted(PeerIDs(s.peers[..i]), skips)
      {
        var id := peers[i].id;
        WantedOneMore(s.peers, i, skips);
        if !skips(id) {
          PublishedStep(s, clip, visited, id);
          visited := visited + {id};
          PublishOne(clip, id);
        }
      }
      assert s.peers[..|s.peers|] == s.peers;
    }

    /** The second publish loop: peers with a session that the first left out. */
    method PublishToSessions(clip: Clip, skips: string -> bool, visited: set<string>, ghost s: Shared)
      requires WellFormed(s) && View() == PublishedTo(s, clip, visited)
      modifies this
      ensures View() == PublishedTo(s, clip, visited + Wanted(s.sessions.Keys, skips))
    {
      var todo := sessions.Keys - visited;
      ghost var done := visited;
      WantedRest(s.sessions.Keys, visited, skips);
      while todo != {}
        invariant todo <= s.sessions.Keys
        invariant View() == PublishedTo(s, clip, done)
        invariant done + Wanted(todo, skips) == visited + Wanted(s.sessions.Keys, skips)
        decreases todo
      {
        var id :| id in todo;
        WantedMove(done, todo, id, skips);
        todo := todo - {id};
        if !skips(id) {
          PublishedStep(s, clip, done, id);
          PublishOne(clip, id);
          done := done + {id};
        }
      }
      WantedNone(done, skips);
      assert done == visited + Wanted(s.sessions.Keys, skips);
    }

    method PublishOne(clip: Clip, id: string)
      requires id in sessions ==> sessions[id] in table
      modifies this
      ensures View() == PublishedOne(old(View()), clip, id)
    {
      pending := pending[id := clip];
      var r := RuntimeOf(View(), id);
      runtime := runtime[id := WithStatus(r.(pending := true))];
      if id in sessions {
        var sid := sessions[id];
        table := table[sid := table[sid].(slot := Some(clip))];
      }
    }

    method Refresh(next: seq<Peer>)
      requires Valid()
      modifies this
      ensures Valid()
      ensures View() == Refreshed(old(View()), next)
    {
      Review(next);
      RefreshedWellFormed(old(View()), next);
      if started {
        ghost var s := View();
        for i := 0 to |next|
          invariant View() == StartedMissing(s, next, i)
        {
          StartedMissingAdds(s, next, i);
          if next[i].id !in sessions {
            StartPeer(next[i]);
          }
        }
      }
    }

    method Review(next: seq<Peer>)
      requires Valid()
      modifies this
      ensures View() == Reviewed(old(View()), next, old(sessions).Keys)
      ensures Valid()
    {
      ghost var s := View();
      peers := next;
      var todo := sessions.Keys;
      ghost var done: set<string> := {};
      ReviewedNone(s, next);
      while todo != {}
        invariant done <= s.sessions.Keys && todo == s.sessions.Keys - done
        invariant View() == Reviewed(s, next, done)
        decreases todo
      {
        var id :| id in todo;
        ReviewedStep(s, next, done, id);
        ReviewOne(next, id);
        assert todo - {id} == s.sessions.Keys - (done + {id});
        todo := todo - {id};
        done := done + {id};
      }
      assert done == s.sessions.Keys;
      ReviewedWellFormed(s, next);
    }

    method ReviewOne(next: seq<Peer>, id: string)
      requires id in sessions && sessions[id] in table
      modifies this
      ensures View() == ReviewedOne(old(View()), next, id)
    {
      var sid := sessions[id];
      var wanted := LastWith(next, id);
      if wanted != Some(table[sid].peer) {
        table := table[sid := table[sid].(cancelled := true)];
        sessions := sessions - {id};
        if wanted == None {
          pending := pending - {id};
          runtime := runtime - {id};
        }
      }
    }

    method MarkPendingIfSessionCurrent(sid: nat, waiting: bool) returns (ok: bool)
      requires Valid() && sid in table
      modifies this
      ensures ok <==> IsCurrent(old(View()), sid)
      ensures table == old(table)
      ensures View() == if ok then MarkPending(old(View()), table[sid].peer.id, waiting) else old(View())
      ensures Valid()
    {
      ok := IsCurrent(View(), sid);
      if ok {
        var id := table[sid].peer.id;
        runtime := runtime[id := WithStatus(RuntimeOf(View(), id).(pending := waiting || id in pending))];
      }
    }

    method RememberPendingIfSessionCurrent(sid: nat, clip: Clip)
      requires Valid() && sid in table
      modifies this
      ensures table == old(table)
      ensures View() == if IsCurrent(old(View()), sid) then RememberedPending(old(View()), table[sid].peer.id, clip) else old(View())
      ensures Valid()
    {
      if !IsCurrent(View(), sid) {
        return;
      }
      var id := table[sid].peer.id;
      if id !in pending || pending[id].content.id == clip.content.id {
        pending := pending[id := clip];
      }
    }

    /** After the first send, drop the same clip from the session's queue. */
    method DrainQueuedDuplicate(sid: nat, clip: Clip)
      requires Valid() && sid in table
      modifies this
      ensures View() ==
        if old(table)[sid].slot.Some? && old(table)[sid].slot.value.content.id == clip.content.id
        then old(View()).(table := old(table)[sid := old(table)[sid].(slot := None)]) else old(View())
      ensures Valid()
    {
      var session := table[sid];
      if session.slot.Some? && session.slot.value.content.id == clip.content.id {
        table := table[sid := session.(slot := None)];
      }
    }

    /** An ack: the in-flight clip with its number is settled or dropped. */
    method HandleAck(sid: nat, inflight: map<nat, Clip>, ack: Ack, now: int) returns (rest: map<nat, Clip>, removed: bool)
      requires Valid() && sid in table
      modifies this
      ensures removed <==> ack.seqNo in inflight
      ensures rest == inflight - {ack.seqNo}
      ensures View() == if removed then AckedBy(old(View()), sid, inflight[ack.seqNo], ack, now) else old(View())
      ensures Valid()
    {
      rest, removed := inflight, false;
      if ack.seqNo !in inflight {
        return;
      }
      var clip := inflight[ack.seqNo];
      rest, removed := inflight - {ack.seqNo}, true;
      if !IsCurrent(View(), sid) {
        return;
      }
      var id := table[sid].peer.id;
      var qualifies := Qualifying(ack, clip);
      if qualifies || (ack.status == Rejected && ack.id == clip.content.id) {
        if id in pending && pending[id].content.id == clip.content.id {
          pending := pending - {id};
          var r := RuntimeOf(View(), id);
          runtime := runtime[id := WithStatus(r.(pending := false))];
        }
      }
      if qualifies {
        var r := RuntimeOf(View(), id);
        runtime := runtime[id := WithStatus(r.(active := true, pending := id in pending, lastAck := now, lastError := "", lastErrorTS := 0))];
      }
    }
  }

  lemma PublishedNone(s: Shared, clip: Clip)
    ensures PublishedTo(s, clip, {}) == s
  {
    var t := PublishedTo(s, clip, {});
    assert t.pending == s.pending;
    assert t.runtime == s.runtime;
    assert t.table == s.table;
  }

  lemma ReviewedNone(s: Shared, next: seq<Peer>)
    requires WellFormed(s)
    ensures Reviewed(s, next, {}) == s.(peers := next)
  {
    var t := Reviewed(s, next, {});
    assert t.sessions == s.sessions;
    assert t.pending == s.pending;
    assert t.runtime == s.runtime;
    assert t.table == s.table;
  }
}
