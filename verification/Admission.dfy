/** What the running program makes of a host's configuration: whom its gateway
    admits, which sessions it opens, and when a mesh edge needs no repair
    (internal/cli/ssh_gateway.go, internal/daemon/ssh_session.go,
    internal/cli/mesh_heal_changedetect.go). */
module Admissions {
  import opened Wrappers
  import opened Jsons
  import opened Configs

  // ---- the gateway ----

  /** The first peer with that id. */
  function FirstPeer(peers: seq<SSHPeer>, id: Txt): Option<SSHPeer> {
    if peers == [] then None
    else if peers[0].id == id then Some(peers[0])
    else FirstPeer(peers[1..], id)
  }

  /** Peers that both keep a session and are ready. */
  predicate KeepsSession(p: SSHPeer) {
    p.enabled && p.connect && p.persistent && p.migrationState.Ready?
  }

  predicate HasMaterial(cfg: Config) {
    cfg.ssh.Some? && !cfg.ssh.value.syncKey.Empty? && !cfg.ssh.value.knownHosts.Empty?
  }

  /** The checks on the entry that was found. */
  predicate EntryAdmits(ssh: SSHConfig, peer: SSHPeer, keyID: Txt) {
    KeepsSession(peer) && peer.accept && !ssh.syncKey.Empty? && !ssh.knownHosts.Empty? && peer.proof.acceptKeyID == keyID
  }

  predicate Admits(cfg: Config, id: Txt, keyID: Txt) {
    && cfg.transport.TransportSSH? && cfg.ssh.Some?
    && FirstPeer(cfg.ssh.value.peers, id).Some? && EntryAdmits(cfg.ssh.value, FirstPeer(cfg.ssh.value.peers, id).value, keyID)
  }

  lemma {:induction false} FirstPeerAfter(peers: seq<SSHPeer>, id: Txt, i: nat)
    requires i <= |peers| && forall j :: 0 <= j < i ==> peers[j].id != id
    ensures FirstPeer(peers, id) == if i < |peers| && peers[i].id == id then Some(peers[i]) else FirstPeer(peers[i..], id)
  {
    if i > 0 {
      FirstPeerAfter(peers[1..], id, i - 1);
      assert peers[1..][i - 1..] == peers[i..];
    } else {
      assert peers[0..] == peers;
    }
  }

  method ValidateGatewayPeer(cfg: Config, id: Txt, keyID: Txt) returns (ok: bool)
    ensures ok <==> Admits(cfg, id, keyID)
  {
    if !cfg.transport.TransportSSH? || cfg.ssh.None? {
      return false;
    }
    var found := FindPeer(cfg.ssh.value.peers, id);
    if found.None? {
      return false;
    }
    ok := EntryAdmits(cfg.ssh.value, found.value, keyID);
  }

  /** The scan for the peer's entry. */
  method FindPeer(peers: seq<SSHPeer>, id: Txt) returns (found: Option<SSHPeer>)
    ensures found == FirstPeer(peers, id)
  {
    for i := 0 to |peers|
      invariant forall j :: 0 <= j < i ==> peers[j].id != id
    {
      if peers[i].id == id {
        FirstPeerAfter(peers, id, i);
        return Some(peers[i]);
      }
    }
    FirstPeerAfter(peers, id, |peers|);
    return None;
  }

  // ---- the session list ----

  datatype SyncPeer = SyncPeer(
    id: Txt, user: Txt, host: Txt, port: int, privateKeyPath: Txt, knownHostsPath: Txt,
    gatewayPath: Txt, connectKeyID: Txt, directGateway: bool)

  function SyncPeerOf(ssh: SSHConfig, p: SSHPeer): SyncPeer {
    SyncPeer(p.id, p.sshUser, p.sshHost, p.sshPort, ssh.syncKey, ssh.knownHosts,
             if p.gatewayPath.Empty? then p.proof.connectGatewayPath else p.gatewayPath,
             p.proof.connectKeyID, p.proof.connectVerifiedBy.TailscaleSSH?)
  }

  /** All peers that keep a session, in order. */
  function Keepers(ssh: SSHConfig, peers: seq<SSHPeer>): seq<SyncPeer> {
    if peers == [] then []
    else
      var n := |peers| - 1;
      Keepers(ssh, peers[..n]) + if KeepsSession(peers[n]) then [SyncPeerOf(ssh, peers[n])] else []
  }

  function Limited<T>(s: seq<T>, limit: int): seq<T> {
    if 0 < limit < |s| then s[..limit] else s
  }

  function SyncPeers(cfg: Config): seq<SyncPeer> {
    if !cfg.transport.TransportSSH? || !HasMaterial(cfg) then []
    else Limited(Keepers(cfg.ssh.value, cfg.ssh.value.peers), cfg.ssh.value.maxSessions)
  }

  lemma {:induction false} KeepersGrow(ssh: SSHConfig, peers: seq<SSHPeer>, i: nat)
    requires i <= |peers|
    ensures |Keepers(ssh, peers[..i])| <= |Keepers(ssh, peers)|
    ensures Keepers(ssh, peers[..i]) == Keepers(ssh, peers)[..|Keepers(ssh, peers[..i])|]
  {
    if i == |peers| {
      assert peers[..i] == peers;
    } else {
      var n := |peers| - 1;
      KeepersGrow(ssh, peers[..n], i);
      assert peers[..n][..i] == peers[..i];
    }
  }

  method SSHSyncPeers(cfg: Config) returns (out: seq<SyncPeer>)
    ensures out == SyncPeers(cfg)
  {
    if !cfg.transport.TransportSSH? || cfg.ssh.None? || cfg.ssh.value.syncKey.Empty? || cfg.ssh.value.knownHosts.Empty? {
      return [];
    }
    var ssh := cfg.ssh.value;
    out := [];
    for i := 0 to |ssh.peers|
      invariant out == Keepers(ssh, ssh.peers[..i])
      invariant ssh.maxSessions > 0 ==> |out| <= ssh.maxSessions
    {
      var peer := ssh.peers[i];
      assert ssh.peers[..i + 1][..i] == ssh.peers[..i];
      if !KeepsSession(peer) {
        continue;
      }
      if ssh.maxSessions > 0 && |out| >= ssh.maxSessions {
        KeepersGrow(ssh, ssh.peers, i);
        KeepersGrow(ssh, ssh.peers, i + 1);
        break;
      }
      out := out + [SyncPeerOf(ssh, peer)];
    }
    assert ssh.peers[..|ssh.peers|] == ssh.peers;
  }

  lemma {:induction false} KeeperListed(ssh: SSHConfig, peers: seq<SSHPeer>, p: SSHPeer)
    requires p in peers && KeepsSession(p)
    ensures SyncPeerOf(ssh, p) in Keepers(ssh, peers)
  {
    var n := |peers| - 1;
    if peers[n] != p {
      assert p in peers[..n];
      KeeperListed(ssh, peers[..n], p);
    }
  }

  // ---- edges ----

  /** One end's record of an edge is complete. */
  predicate EndHealthy(peer: Option<SSHPeer>) {
    peer.Some? && peer.value.enabled && peer.value.accept && peer.value.connect && peer.value.migrationState.Ready?
    && !peer.value.proof.acceptKeyID.Empty? && !peer.value.proof.connectKeyID.Empty?
  }

  predicate EdgeHealthy(a: Option<SSHPeer>, b: Option<SSHPeer>) {
    EndHealthy(a) && EndHealthy(b)
  }

  lemma {:induction false} FirstPeerIn(peers: seq<SSHPeer>, id: Txt)
    ensures FirstPeer(peers, id).Some? ==> FirstPeer(peers, id).value in peers
  {
    if peers != [] && peers[0].id != id {
      FirstPeerIn(peers[1..], id);
    }
  }
}
