/** The clip mesh as a step relation over daemons and gateway streams
    (internal/daemon/daemon.go, internal/cli/ssh_gateway.go), and its
    convergence. */
module Meshes {
  import opened Wrappers
  import opened Hostnames
  import opened SeenSets
  import opened Daemons
  import opened Gateways

  /** A link (x, y) is the gateway stream on which x pushes its current clip to y. */
  type Link = (string, string)

  function Reverse(l: Link): Link {
    (l.1, l.0)
  }

  datatype Net = Net(names: set<string>, links: set<Link>, paths: StorePaths) {
    /** One stream each way per pair, and names no two of which match. */
    ghost predicate WellFormed() {
      && (forall l :: l in links ==> l.0 in names && l.1 in names)
      && (forall l {:trigger Reverse(l)} :: l in links ==> Reverse(l) in links)
      && (forall a, b {:trigger HostsMatch(a, b)} :: a in names && b in names && HostsMatch(a, b) ==> a == b)
    }
  }

  /** sent and wire belong to the gateway process and the stream of a link;
      clips, ids and accepted are histories: every clip copied so far, their IDs,
      and the clips each host took over. */
  datatype Mesh = Mesh(
    hosts: map<string, Host>,
    sent: map<Link, set<string>>,
    wire: map<Link, seq<Clip>>,
    clips: set<Clip>,
    ids: set<string>,
    accepted: map<string, set<Clip>>)

  datatype Step =
    | Poll(host: string, read: Option<Content>, minted: string, saved: Option<string>)
    | Restore(host: string, entry: Content, imagePath: string, minted: string)
    | GatewayPoll(link: Link)
    | Deliver(link: Link, saved: Option<string>)
    | Relay(host: string, clip: Clip, saved: Option<string>)
    | Reconnect(link: Link)

  function Init(net: Net): Mesh {
    Mesh(map h | h in net.names :: FreshHost(h),
         map l | l in net.links :: {},
         map l | l in net.links :: [],
         {}, {},
         map h | h in net.names :: {})
  }

  ghost predicate Shaped(net: Net, m: Mesh) {
    && m.hosts.Keys == net.names
    && m.accepted.Keys == net.names
    && m.sent.Keys == net.links
    && m.wire.Keys == net.links
  }

  /** What a gateway poll of link l would push, if anything. */
  function Due(m: Mesh, l: Link): Option<Clip>
    requires l.0 in m.hosts && l in m.sent
  {
    DueClip(CurrentPayload(m.hosts[l.0]), l.1, m.sent[l])
  }

  /** Copies made in the runs considered: new ID, stamp and content, not
      concealed, small enough, no store path, stamped after the host's last. */
  ghost predicate NewCopy(net: Net, m: Mesh, host: string, c: Content, imagePath: string)
    requires host in m.hosts
  {
    && c.id != "" && !c.concealed && |c.bytes| <= MAX_PAYLOAD_BYTES
    && c.ts > m.hosts[host].lastTS
    && !IsPathText(net.paths, c)
    && (c.kind.KImage? ==> imagePath != "" && net.paths(imagePath))
    && c.id !in m.ids
    && (forall k :: k in m.clips ==> !Clash(k.content, c))
  }

  predicate Clash(a: Content, b: Content) {
    a.id == b.id || a.ts == b.ts || (a.kind == b.kind && a.hash == b.hash)
  }

  /** Saving a received image succeeds. */
  predicate Saves(net: Net, c: Content, saved: Option<string>) {
    c.kind.KImage? ==> saved.Some? && saved.value != "" && net.paths(saved.value)
  }

  ghost predicate Enabled(net: Net, m: Mesh, step: Step)
    requires Shaped(net, m)
  {
    match step
    case Poll(h, read, minted, saved) =>
      h in net.names &&
      (PollTakes(m.hosts[h], net.paths, read, minted) ==>
         var c := read.value.(id := minted);
         NewCopy(net, m, h, c, PolledPath(c, saved)))
    case Restore(h, entry, imagePath, minted) =>
      h in net.names && (minted != "" ==> NewCopy(net, m, h, entry.(id := minted), imagePath))
    case GatewayPoll(l) => l in net.links
    case Deliver(l, saved) => l in net.links && m.wire[l] != [] && Saves(net, m.wire[l][0].content, saved)
    case Relay(h, clip, saved) => h in net.names && clip in m.clips && Saves(net, clip.content, saved)
    case Reconnect(l) => l in net.links
  }

  /** The host takes a copy of its own. */
  function Copied(m: Mesh, h: string, host': Host): Mesh
    requires h in m.hosts && h in m.accepted
  {
    if host' == m.hosts[h] then m
    else
      var k := Clip(host'.current.content, h);
      m.(hosts := m.hosts[h := host'], clips := m.clips + {k}, ids := m.ids + {k.content.id}, accepted := m.accepted[h := m.accepted[h] + {k}])
  }

  /** The host handles a clip from a peer; local writes succeed. */
  function Handed(net: Net, m: Mesh, h: string, clip: Clip, saved: Option<string>): Mesh
    requires h in m.hosts && h in m.accepted
  {
    var host := m.hosts[h];
    m.(hosts := m.hosts[h := Received(host, net.paths, clip.content, clip.origin, saved, true)],
       accepted := m.accepted[h := if Accepts(host, net.paths, clip.content) then m.accepted[h] + {clip} else m.accepted[h]])
  }

  ghost function Next(net: Net, m: Mesh, step: Step): Mesh
    requires Shaped(net, m) && net.WellFormed() && Enabled(net, m, step)
  {
    match step
    case Poll(h, read, minted, saved) => Copied(m, h, Polled(m.hosts[h], net.paths, read, minted, saved))
    case Restore(h, entry, imagePath, minted) => Copied(m, h, Restored(m.hosts[h], entry, imagePath, minted, true))
    case GatewayPoll(l) =>
      (match Due(m, l)
       case None => m
       case Some(clip) =>
         m.(sent := m.sent[l := m.sent[l] + {clip.content.id}], wire := m.wire[l := m.wire[l] + [clip]]))
    case Deliver(l, saved) => Handed(net, m.(wire := m.wire[l := m.wire[l][1..]]), l.1, m.wire[l][0], saved)
    case Relay(h, clip, saved) => Handed(net, m, h, clip, saved)
    case Reconnect(l) => m.(sent := m.sent[l := {}], wire := m.wire[l := []])
  }

  /** Runs: a list of meshes, each one enabled step after the one before. */
  ghost predicate IsRun(net: Net, run: seq<Mesh>, steps: seq<Step>) {
    && net.WellFormed()
    && |run| == |steps| + 1
    && run[0] == Init(net)
    && (forall i :: 0 <= i < |run| ==> Shaped(net, run[i]))
    && (forall i :: 0 <= i < |steps| ==> Enabled(net, run[i], steps[i]) && run[i + 1] == Next(net, run[i], steps[i]))
  }

  // ---- invariant ----

  ghost predicate ClipsOk(net: Net, clips: set<Clip>) {
    && (forall k :: k in clips ==>
          && k.content.id != "" && k.content.ts > ZERO_TIME && !k.content.concealed
          && |k.content.bytes| <= MAX_PAYLOAD_BYTES && !IsPathText(net.paths, k.content)
          && k.origin in net.names)
    && (forall k, k' {:trigger Clash(k.content, k'.content)} ::
          k in clips && k' in clips && Clash(k.content, k'.content) ==> k == k')
  }

  ghost predicate HostOk(net: Net, clips: set<Clip>, ids: set<string>, h: Host) {
    && !h.safeMode
    && h.lastTS >= ZERO_TIME
    && (h.current == NO_CURRENT ==> h.lastTS == ZERO_TIME)
    && (h.current != NO_CURRENT ==>
          && Holds(h)
          && Clip(h.current.content, h.current.origin) in clips
          && (h.current.kind.KImage? ==> h.current.imagePath != "" && net.paths(h.current.imagePath)))
    && (forall id :: id in h.seen ==> id in ids)
    && (forall k :: k in clips && k.content.id in h.seen ==> k.content.ts <= h.lastTS)
  }

  /** A host's current clip is the newest of those it took over. */
  ghost predicate NewestHeld(h: Host, accepted: set<Clip>) {
    && (forall k :: k in accepted ==> k.content.ts <= h.lastTS)
    && (h.current != NO_CURRENT ==> Clip(h.current.content, h.current.origin) in accepted)
    && (h.current == NO_CURRENT ==> accepted == {})
  }

  ghost predicate HostFine(net: Net, m: Mesh, h: string)
    requires Shaped(net, m) && h in net.names
  {
    && HostOk(net, m.clips, m.ids, m.hosts[h])
    && m.hosts[h].origin == h
    && NewestHeld(m.hosts[h], m.accepted[h])
  }

  /** A clip has reached its own host, and its ID counts as used. */
  ghost predicate ClipFine(net: Net, m: Mesh, k: Clip)
    requires Shaped(net, m) && k.origin in net.names
  {
    k.content.id in m.ids && k.content.ts <= m.hosts[k.origin].lastTS
  }

  /** Whatever was sent on a link is still on the way or has reached the far end. */
  ghost predicate LinkFine(net: Net, m: Mesh, l: Link)
    requires Shaped(net, m) && l in net.links && l.1 in net.names
  {
    && (forall k :: k in m.wire[l] ==> k in m.clips)
    && m.sent[l] <= m.ids
    && (forall k :: k in m.clips && k.content.id in m.sent[l] ==> k in m.wire[l] || k.content.ts <= m.hosts[l.1].lastTS)
  }

  ghost predicate Inv(net: Net, m: Mesh) {
    && Shaped(net, m)
    && net.WellFormed()
    && ClipsOk(net, m.clips)
    && (forall h {:trigger HostFine(net, m, h)} :: h in net.names ==> HostFine(net, m, h))
    && (forall k {:trigger ClipFine(net, m, k)} :: k in m.clips ==> ClipFine(net, m, k))
    && (forall l {:trigger LinkFine(net, m, l)} :: l in net.links ==> LinkFine(net, m, l))
  }

  /** Once a clip has reached a host, whatever the host did with it, the host's
      last stamp is at least the clip's: it was accepted, is the current one,
      was seen before, or is older. */
  lemma ReceivedReaches(net: Net, clips: set<Clip>, ids: set<string>, h: Host, clip: Clip, saved: Option<string>)
    requires ClipsOk(net, clips) && clip in clips && clip.content.id in ids && HostOk(net, clips, ids, h)
    requires Saves(net, clip.content, saved)
    ensures
      var h' := Received(h, net.paths, clip.content, clip.origin, saved, true);
      && HostOk(net, clips, ids, h')
      && h'.lastTS >= clip.content.ts
      && h'.lastTS >= h.lastTS
      && h'.origin == h.origin
      && (h' != h ==> Accepts(h, net.paths, clip.content) && h'.current.content == clip.content && h'.current.origin == clip.origin)
  {
    var c := clip.content;
    if IsEcho(h.current, c) {
      var cur := Clip(h.current.content, h.current.origin);
      assert cur in clips;
      assert Clash(cur.content, c);
    } else if c.id !in h.seen && Accepts(h, net.paths, c) {
      var h' := Received(h, net.paths, c, clip.origin, saved, true);
      RecordedIds(h.seen, c.id);
      forall k | k in clips && k.content.id in h'.seen
        ensures k.content.ts <= h'.lastTS
      {
        if k.content.id == c.id { assert Clash(k.content, c); }
      }
    }
  }

  lemma RecordedIds(order: seq<string>, id: string)
    ensures forall x :: x in Recorded(order, id) ==> x == id || x in order
  {
  }

  /** The state of a host that has just taken a copy of its own. */
  ghost predicate TookCopy(net: Net, m: Mesh, host: string, h': Host, c: Content)
    requires Shaped(net, m) && host in net.names
  {
    && NewCopy(net, m, host, c, h'.current.imagePath)
    && h' == m.hosts[host].(
         seen := Recorded(m.hosts[host].seen, c.id), lastTS := c.ts,
         current := CurrentClip(c.id, c.kind, c.hash, h'.current.imagePath, c, host, true))
  }

  lemma CopyKeepsHost(net: Net, m: Mesh, host: string, h': Host, c: Content, h: string)
    requires Inv(net, m) && host in net.names && h in net.names && TookCopy(net, m, host, h', c)
    ensures HostFine(net, Copied(m, host, h'), h)
  {
    RecordedIds(m.hosts[host].seen, c.id);
    assert HostFine(net, m, h);
    assert HostFine(net, m, host);
  }

  lemma CopyKeepsLink(net: Net, m: Mesh, host: string, h': Host, c: Content, l: Link)
    requires Inv(net, m) && host in net.names && TookCopy(net, m, host, h', c)
    requires l in net.links
    ensures LinkFine(net, Copied(m, host, h'), l)
  {
    assert LinkFine(net, m, l);
  }

  lemma CopyKeepsClip(net: Net, m: Mesh, host: string, h': Host, c: Content, k: Clip)
    requires Inv(net, m) && host in net.names && TookCopy(net, m, host, h', c)
    requires k in Copied(m, host, h').clips
    ensures k.origin in net.names && ClipFine(net, Copied(m, host, h'), k)
  {
    if k in m.clips { assert ClipFine(net, m, k); }
  }

  lemma CopyKeepsClips(net: Net, m: Mesh, host: string, h': Host, c: Content)
    requires Inv(net, m) && host in net.names && TookCopy(net, m, host, h', c)
    ensures ClipsOk(net, Copied(m, host, h').clips)
  {
    assert HostFine(net, m, host);
  }

  lemma CopyKeepsShape(net: Net, m: Mesh, host: string, h': Host)
    requires Shaped(net, m) && host in net.names
    ensures Shaped(net, Copied(m, host, h'))
  {
  }

  lemma CopyKeepsInv(net: Net, m: Mesh, host: string, h': Host, c: Content)
    requires Inv(net, m) && host in net.names && TookCopy(net, m, host, h', c)
    ensures Inv(net, Copied(m, host, h'))
  {
    var m' := Copied(m, host, h');
    CopyKeepsClips(net, m, host, h', c);
    CopyKeepsShape(net, m, host, h');
    forall h | h in net.names
      ensures HostFine(net, m', h)
    {
      CopyKeepsHost(net, m, host, h', c, h);
    }
    forall k | k in m'.clips
      ensures ClipFine(net, m', k)
    {
      CopyKeepsClip(net, m, host, h', c, k);
    }
    forall l | l in net.links
      ensures LinkFine(net, m', l)
    {
      CopyKeepsLink(net, m, host, h', c, l);
    }
  }

  lemma HandedReaches(net: Net, m: Mesh, h: string, clip: Clip, saved: Option<string>)
    requires Inv(net, m) && h in net.names && clip in m.clips && Saves(net, clip.content, saved)
    ensures
      var m' := Handed(net, m, h, clip, saved);
      HostFine(net, m', h) && m'.hosts[h].lastTS >= clip.content.ts && m'.hosts[h].lastTS >= m.hosts[h].lastTS
  {
    assert HostFine(net, m, h) && ClipFine(net, m, clip);
    ReceivedReaches(net, m.clips, m.ids, m.hosts[h], clip, saved);
  }

  /** Raising one host's last stamp cannot disturb a link or a clip. */
  lemma HandedKeepsLink(net: Net, m: Mesh, m': Mesh, l: Link)
    requires Inv(net, m) && Shaped(net, m') && l in net.links
    requires m' == m.(hosts := m'.hosts, accepted := m'.accepted)
    requires m'.hosts[l.1].lastTS >= m.hosts[l.1].lastTS
    ensures LinkFine(net, m', l)
  {
    assert LinkFine(net, m, l);
  }

  lemma HandedKeepsOther(net: Net, m: Mesh, m': Mesh, x: string)
    requires Inv(net, m) && Shaped(net, m') && x in net.names
    requires m' == m.(hosts := m'.hosts, accepted := m'.accepted)
    requires m'.hosts[x] == m.hosts[x] && m'.accepted[x] == m.accepted[x]
    ensures HostFine(net, m', x)
  {
    assert HostFine(net, m, x);
  }

  /** One host changed, its last stamp did not fall: the rest of the invariant stays. */
  lemma OneHostChanged(net: Net, m: Mesh, m': Mesh, h: string)
    requires Inv(net, m) && Shaped(net, m') && h in net.names
    requires m' == m.(hosts := m'.hosts, accepted := m'.accepted)
    requires forall x :: x in net.names && x != h ==> m'.hosts[x] == m.hosts[x] && m'.accepted[x] == m.accepted[x]
    requires HostFine(net, m', h) && m'.hosts[h].lastTS >= m.hosts[h].lastTS
    ensures Inv(net, m')
  {
    forall x | x in net.names
      ensures HostFine(net, m', x)
    {
      if x != h { HandedKeepsOther(net, m, m', x); }
    }
    forall k | k in m.clips
      ensures ClipFine(net, m', k)
    {
      assert ClipFine(net, m, k);
    }
    forall l | l in net.links
      ensures LinkFine(net, m', l)
    {
      HandedKeepsLink(net, m, m', l);
    }
  }

  lemma HandedKeepsInv(net: Net, m: Mesh, h: string, clip: Clip, saved: Option<string>)
    requires Inv(net, m) && h in net.names && clip in m.clips && Saves(net, clip.content, saved)
    ensures Inv(net, Handed(net, m, h, clip, saved))
    ensures Handed(net, m, h, clip, saved).hosts[h].lastTS >= clip.content.ts
  {
    HandedReaches(net, m, h, clip, saved);
    OneHostChanged(net, m, Handed(net, m, h, clip, saved), h);
  }

  /** Changing only what links carry keeps the rest of the invariant. */
  lemma LinksChanged(net: Net, m: Mesh, m': Mesh)
    requires Inv(net, m) && m' == m.(sent := m'.sent, wire := m'.wire)
    requires m'.sent.Keys == m'.wire.Keys == net.links
    requires forall l {:trigger LinkFine(net, m', l)} :: l in net.links ==> LinkFine(net, m', l)
    ensures Inv(net, m')
  {
    forall h | h in net.names
      ensures HostFine(net, m', h)
    {
      assert HostFine(net, m, h);
    }
    forall k | k in m.clips
      ensures ClipFine(net, m', k)
    {
      assert ClipFine(net, m, k);
    }
  }

  lemma GatewayPollKeepsInv(net: Net, m: Mesh, l: Link)
    requires Inv(net, m) && l in net.links
    ensures Inv(net, Next(net, m, GatewayPoll(l)))
  {
    var m' := Next(net, m, GatewayPoll(l));
    var due := Due(m, l);
    if due.Some? {
      assert HostFine(net, m, l.0);
      assert ClipFine(net, m, due.value);
      forall k | k in net.links
        ensures LinkFine(net, m', k)
      {
        assert LinkFine(net, m, k);
        if k == l {
          forall c | c in m.clips && c.content.id in m'.sent[l]
            ensures c in m'.wire[l] || c.content.ts <= m.hosts[l.1].lastTS
          {
            if c.content.id == due.value.content.id {
              assert Clash(c.content, due.value.content);
            }
          }
        }
      }
      LinksChanged(net, m, m');
    }
  }

  /** Delivering is handing over the first clip of the wire, then dropping it. */
  lemma DeliverKeepsInv(net: Net, m: Mesh, l: Link, saved: Option<string>)
    requires Inv(net, m) && Enabled(net, m, Deliver(l, saved))
    ensures Inv(net, Next(net, m, Deliver(l, saved)))
  {
    assert LinkFine(net, m, l);
    var clip := m.wire[l][0];
    var handed := Handed(net, m, l.1, clip, saved);
    HandedKeepsInv(net, m, l.1, clip, saved);
    var m' := Next(net, m, Deliver(l, saved));
    assert m' == handed.(wire := m.wire[l := m.wire[l][1..]]);
    forall k | k in net.links
      ensures LinkFine(net, m', k)
    {
      assert LinkFine(net, handed, k);
      assert k == l ==> m.wire[l] == [clip] + m'.wire[l];
    }
    LinksChanged(net, handed, m');
  }

  lemma ReconnectKeepsInv(net: Net, m: Mesh, l: Link)
    requires Inv(net, m) && l in net.links
    ensures Inv(net, Next(net, m, Reconnect(l)))
  {
    var m' := Next(net, m, Reconnect(l));
    forall k | k in net.links
      ensures LinkFine(net, m', k)
    {
      assert LinkFine(net, m, k);
    }
    LinksChanged(net, m, m');
  }

  lemma StepKeepsInv(net: Net, m: Mesh, step: Step)
    requires Inv(net, m) && Enabled(net, m, step)
    ensures Inv(net, Next(net, m, step))
  {
    match step
    case Poll(h, read, minted, saved) =>
      assert HostFine(net, m, h);
      if PollTakes(m.hosts[h], net.paths, read, minted) {
        CopyKeepsInv(net, m, h, Polled(m.hosts[h], net.paths, read, minted, saved), read.value.(id := minted));
      }
    case Restore(h, entry, imagePath, minted) =>
      assert HostFine(net, m, h);
      if minted != "" {
        CopyKeepsInv(net, m, h, Restored(m.hosts[h], entry, imagePath, minted, true), entry.(id := minted));
      }
    case GatewayPoll(l) => GatewayPollKeepsInv(net, m, l);
    case Deliver(l, saved) => DeliverKeepsInv(net, m, l, saved);
    case Relay(h, clip, saved) => HandedKeepsInv(net, m, h, clip, saved);
    case Reconnect(l) => ReconnectKeepsInv(net, m, l);
  }

  lemma {:induction false} RunKeepsInv(net: Net, run: seq<Mesh>, steps: seq<Step>, n: nat)
    requires IsRun(net, run, steps) && n < |run|
    ensures Inv(net, run[n])
  {
    if n > 0 {
      RunKeepsInv(net, run, steps, n - 1);
      StepKeepsInv(net, run[n - 1], steps[n - 1]);
    }
  }

  // ---- convergence ----

  /** Every stream has delivered its host's current clip: no gateway has
      anything left to push and nothing is on the way. */
  ghost predicate Quiescent(net: Net, m: Mesh)
    requires Shaped(net, m) && net.WellFormed()
  {
    forall l :: l in net.links ==> Due(m, l) == None && m.wire[l] == []
  }

  /** A path of links from a to b. */
  ghost predicate IsPath(net: Net, path: seq<string>, a: string, b: string) {
    && path != [] && path[0] == a && path[|path| - 1] == b && a in net.names
    && (forall i :: 0 <= i < |path| - 1 ==> (path[i], path[i + 1]) in net.links)
  }

  lemma LinkReached(net: Net, m: Mesh, l: Link)
    requires Inv(net, m) && l in net.links && Due(m, l) == None && m.wire[l] == []
    ensures m.hosts[l.0].lastTS <= m.hosts[l.1].lastTS
  {
    var h := m.hosts[l.0];
    assert HostFine(net, m, l.0) && HostFine(net, m, l.1) && LinkFine(net, m, l);
    if h.current != NO_CURRENT {
      var k := Clip(h.current.content, h.current.origin);
      assert ClipFine(net, m, k);
      if HostsMatch(k.origin, l.1) {
        assert k.origin == l.1;
      } else {
        assert k.content.id in m.sent[l];
      }
    }
  }

  lemma NeighboursAgree(net: Net, m: Mesh, l: Link)
    requires Inv(net, m) && Quiescent(net, m) && l in net.links
    ensures m.hosts[l.0].lastTS == m.hosts[l.1].lastTS
    ensures m.hosts[l.0].current.content == m.hosts[l.1].current.content
  {
    LinkReached(net, m, l);
    LinkReached(net, m, Reverse(l));
    var a, b := m.hosts[l.0], m.hosts[l.1];
    assert HostFine(net, m, l.0) && HostFine(net, m, l.1);
    if a.current != NO_CURRENT && b.current != NO_CURRENT {
      var ka, kb := Clip(a.current.content, a.current.origin), Clip(b.current.content, b.current.origin);
      assert Clash(ka.content, kb.content);
    }
  }

  lemma {:induction false} PathAgrees(net: Net, m: Mesh, path: seq<string>, a: string, b: string)
    requires Inv(net, m) && Quiescent(net, m) && IsPath(net, path, a, b)
    ensures b in net.names
    ensures m.hosts[a].lastTS == m.hosts[b].lastTS
    ensures m.hosts[a].current.content == m.hosts[b].current.content
    decreases |path|
  {
    if |path| > 1 {
      var c := path[1];
      assert (path[0], c) in net.links;
      NeighboursAgree(net, m, (a, c));
      forall i | 0 <= i < |path[1..]| - 1
        ensures (path[1..][i], path[1..][i + 1]) in net.links
      {
        assert (path[i + 1], path[i + 2]) in net.links;
      }
      PathAgrees(net, m, path[1..], c, b);
    }
  }

  /** Convergence. In every quiescent mesh of every run, hosts joined by a path
      hold the same clip, and no host on either end ever took over a newer one. */
  lemma Converges(net: Net, run: seq<Mesh>, steps: seq<Step>, n: nat, path: seq<string>, a: string, b: string)
    requires IsRun(net, run, steps) && n < |run|
    requires Quiescent(net, run[n]) && IsPath(net, path, a, b)
    ensures b in net.names
    ensures run[n].hosts[a].current.content == run[n].hosts[b].current.content
    ensures forall k :: k in run[n].accepted[b] ==> k.content.ts <= run[n].hosts[a].current.content.ts
    ensures run[n].accepted[b] != {} ==>
              exists k :: k in run[n].accepted[b] && k.content == run[n].hosts[a].current.content
  {
    var m := run[n];
    RunKeepsInv(net, run, steps, n);
    PathAgrees(net, m, path, a, b);
    assert HostFine(net, m, a) && HostFine(net, m, b);
    if m.accepted[b] != {} {
      assert Clip(m.hosts[b].current.content, m.hosts[b].current.origin) in m.accepted[b];
    }
  }
}
