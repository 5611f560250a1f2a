/** The configuration document: typed view, validation and parsing
    (internal/config/v2.go, internal/config/ssh.go). */
module Configs {
  import opened Wrappers
  import opened Jsons

  /** What the model takes from outside: checks on strings that the code does
      with regular expressions, path cleaning, IP parsing or time parsing, and the
      expansion of "~" paths. */
  datatype Env = Env(
    hostIDOk: Txt -> bool,
    pathOk: Txt -> bool,
    syncKeyPathOk: Txt -> bool,
    userOk: Txt -> bool,
    keyIDOk: Txt -> bool,
    timeOk: Txt -> bool,
    reasonOk: Txt -> bool,
    removalMatches: (Txt, Txt) -> bool,
    blank: Txt -> bool,
    sharedKeyOk: Txt -> bool,
    canonicalHost: Txt -> Option<Txt>,
    needsHome: Txt -> bool,
    expand: Txt -> Txt,
    homeKnown: bool) {

    /** The facts about them that the proofs use. */
    ghost predicate WellFormed() {
      && !hostIDOk(Empty) && !pathOk(Empty) && !userOk(Empty) && !keyIDOk(Empty)
      && canonicalHost(Empty) == None && !sharedKeyOk(Empty)
      && !blank(MaterialStaged) && !blank(RetryProgress) && !blank(SSHMaterialVerified)
      && (forall h :: canonicalHost(h).Some? ==> canonicalHost(canonicalHost(h).value) == canonicalHost(h))
      && !needsHome(Empty)
      && (forall t :: !needsHome(t) ==> expand(t) == t)
      && (forall t :: pathOk(t) ==> !needsHome(t))
    }
  }

  // ---- typed records ----

  datatype SSHProof = SSHProof(
    acceptKeyID: Txt, acceptGatewayPath: Txt, acceptVerifiedAt: Txt, acceptVerifiedBy: Txt,
    connectKeyID: Txt, connectGatewayPath: Txt, connectVerifiedAt: Txt, connectVerifiedBy: Txt)

  datatype SSHPeer = SSHPeer(
    id: Txt, sshHost: Txt, sshUser: Txt, sshPort: int, installPath: Txt, gatewayPath: Txt,
    enabled: bool, accept: bool, connect: bool, persistent: bool, onDemand: bool,
    migrationState: Txt, proof: SSHProof)

  datatype SSHConfig = SSHConfig(
    syncKey: Txt, knownHosts: Txt, maxSessions: int, maxSessionsPerPeer: int, logLimitBytes: int,
    peers: seq<SSHPeer>)

  datatype Config = Config(
    listen: Txt, sharedKey: Txt, discovery: Txt, staticPeers: seq<Txt>, hostname: Txt, transport: Txt,
    port: int, maxHistory: int, ssh: Option<SSHConfig>)

  const NO_SSH := SSHConfig(Empty, Empty, 0, 0, 0, [])

  // ---- decoding JSON fields: absent and null give the zero value ----

  predicate Absent(o: Fields, k: Key) {
    k !in o || o[k].Null?
  }

  predicate StrOk(o: Fields, k: Key) { Absent(o, k) || o[k].Str? }
  predicate BoolOk(o: Fields, k: Key) { Absent(o, k) || o[k].Bool? }
  predicate NumOk(o: Fields, k: Key) { Absent(o, k) || o[k].Num? }

  function StrAt(o: Fields, k: Key): Txt { if k in o && o[k].Str? then o[k].s else Empty }
  function BoolAt(o: Fields, k: Key): bool { k in o && o[k].Bool? && o[k].b }
  function NumAt(o: Fields, k: Key): int { if k in o && o[k].Num? then o[k].n else 0 }

  /** A nested object; absent and null give an empty one. */
  function ObjAt(o: Fields, k: Key): Fields { if k in o && o[k].Obj? then o[k].fields else map[] }

  predicate ProofTyped(o: Fields) {
    && StrOk(o, AcceptKeyID) && StrOk(o, AcceptGatewayPath) && StrOk(o, AcceptVerifiedAt) && StrOk(o, AcceptVerifiedBy)
    && StrOk(o, ConnectKeyID) && StrOk(o, ConnectGatewayPath) && StrOk(o, ConnectVerifiedAt) && StrOk(o, ConnectVerifiedBy)
  }

  function ProofView(o: Fields): SSHProof {
    SSHProof(StrAt(o, AcceptKeyID), StrAt(o, AcceptGatewayPath), StrAt(o, AcceptVerifiedAt), StrAt(o, AcceptVerifiedBy),
             StrAt(o, ConnectKeyID), StrAt(o, ConnectGatewayPath), StrAt(o, ConnectVerifiedAt), StrAt(o, ConnectVerifiedBy))
  }

  predicate PeerTyped(o: Fields) {
    && StrOk(o, Id) && StrOk(o, SshHost) && StrOk(o, SshUser) && NumOk(o, SshPort)
    && StrOk(o, InstallPath) && StrOk(o, GatewayPath)
    && BoolOk(o, Enabled) && BoolOk(o, Accept) && BoolOk(o, Connect) && BoolOk(o, Persistent) && BoolOk(o, OnDemand)
    && StrOk(o, MigrationState)
    && (Absent(o, Proof) || (o[Proof].Obj? && ProofTyped(o[Proof].fields)))
  }

  function PeerView(o: Fields): SSHPeer {
    SSHPeer(StrAt(o, Id), StrAt(o, SshHost), StrAt(o, SshUser), NumAt(o, SshPort), StrAt(o, InstallPath), StrAt(o, GatewayPath),
            BoolAt(o, Enabled), BoolAt(o, Accept), BoolAt(o, Connect), BoolAt(o, Persistent), BoolAt(o, OnDemand),
            StrAt(o, MigrationState), ProofView(ObjAt(o, Proof)))
  }

  /** The raw peer objects of an ssh section; null entries are empty objects. */
  predicate PeersShaped(ssh: Fields) {
    Absent(ssh, Peers) ||
    (ssh[Peers].Arr? && forall i :: 0 <= i < |ssh[Peers].items| ==> ssh[Peers].items[i].Obj? || ssh[Peers].items[i].Null?)
  }

  function PeersAt(ssh: Fields): seq<Fields> {
    if Peers in ssh && ssh[Peers].Arr? then
      seq(|ssh[Peers].items|, i requires 0 <= i < |ssh[Peers].items| =>
            if ssh[Peers].items[i].Obj? then ssh[Peers].items[i].fields else map[])
    else []
  }

  function PeersJson(peers: seq<Fields>): Json {
    Arr(seq(|peers|, i requires 0 <= i < |peers| => Obj(peers[i])))
  }

  function PeerViews(peers: seq<Fields>): seq<SSHPeer> {
    seq(|peers|, i requires 0 <= i < |peers| => PeerView(peers[i]))
  }

  predicate PeersTyped(peers: seq<Fields>) {
    forall i :: 0 <= i < |peers| ==> PeerTyped(peers[i])
  }

  lemma PeersRoundTrip(ssh: Fields, peers: seq<Fields>)
    ensures PeersShaped(ssh[Peers := PeersJson(peers)])
    ensures PeersAt(ssh[Peers := PeersJson(peers)]) == peers
  {
    var o := ssh[Peers := PeersJson(peers)];
    assert |PeersAt(o)| == |peers|;
    forall i | 0 <= i < |peers|
      ensures PeersAt(o)[i] == peers[i]
    {
      assert o[Peers].items[i] == Obj(peers[i]);
    }
  }

  predicate SSHTyped(o: Fields) {
    && StrOk(o, SyncKey) && StrOk(o, KnownHosts)
    && NumOk(o, MaxSessions) && NumOk(o, MaxSessionsPerPeer) && NumOk(o, LogLimitBytes)
    && PeersShaped(o) && PeersTyped(PeersAt(o))
  }

  function SSHView(o: Fields): SSHConfig {
    SSHConfig(StrAt(o, SyncKey), StrAt(o, KnownHosts), NumAt(o, MaxSessions), NumAt(o, MaxSessionsPerPeer), NumAt(o, LogLimitBytes),
              PeerViews(PeersAt(o)))
  }

  predicate StrsOk(o: Fields, k: Key) {
    Absent(o, k) || (o[k].Arr? && forall i :: 0 <= i < |o[k].items| ==> o[k].items[i].Str? || o[k].items[i].Null?)
  }

  function StrsAt(o: Fields, k: Key): seq<Txt> {
    if k in o && o[k].Arr? then
      seq(|o[k].items|, i requires 0 <= i < |o[k].items| => if o[k].items[i].Str? then o[k].items[i].s else Empty)
    else []
  }

  predicate DocTyped(o: Fields) {
    && StrOk(o, Listen) && StrOk(o, SharedKey) && StrOk(o, Discovery) && StrsOk(o, StaticPeers)
    && StrOk(o, Hostname) && StrOk(o, Transport) && NumOk(o, Port) && NumOk(o, MaxHistory)
    && (Absent(o, Ssh) || (o[Ssh].Obj? && SSHTyped(o[Ssh].fields)))
  }

  function DocView(o: Fields): Config {
    Config(StrAt(o, Listen), StrAt(o, SharedKey), StrAt(o, Discovery), StrsAt(o, StaticPeers), StrAt(o, Hostname), StrAt(o, Transport),
           NumAt(o, Port), NumAt(o, MaxHistory),
           if Absent(o, Ssh) || !o[Ssh].Obj? then None else Some(SSHView(o[Ssh].fields)))
  }

  // ---- local path normalisation ----

  predicate NeedsHome(env: Env, ssh: SSHConfig) {
    env.needsHome(ssh.syncKey) || env.needsHome(ssh.knownHosts)
  }

  function NormalizedSSH(env: Env, ssh: SSHConfig): SSHConfig {
    if NeedsHome(env, ssh) then ssh.(syncKey := env.expand(ssh.syncKey), knownHosts := env.expand(ssh.knownHosts)) else ssh
  }

  function Normalize(env: Env, cfg: Config): Result<Config> {
    if cfg.ssh.None? then Ok(cfg)
    else if NeedsHome(env, cfg.ssh.value) && !env.homeKnown then Err("home_dir_unavailable")
    else Ok(cfg.(ssh := Some(NormalizedSSH(env, cfg.ssh.value))))
  }

  // ---- validation ----

  predicate ProofFieldsOk(env: Env, keyID: Txt, gatewayPath: Txt, verifiedAt: Txt, verifiedBy: Txt) {
    env.keyIDOk(keyID) && env.pathOk(gatewayPath) && env.timeOk(verifiedAt)
    && (verifiedBy.LocalFile? || verifiedBy.RegularSSH? || verifiedBy.TailscaleSSH?)
  }

  predicate AcceptProofOk(env: Env, p: SSHProof) {
    ProofFieldsOk(env, p.acceptKeyID, p.acceptGatewayPath, p.acceptVerifiedAt, p.acceptVerifiedBy)
  }

  predicate ConnectProofOk(env: Env, p: SSHProof) {
    ProofFieldsOk(env, p.connectKeyID, p.connectGatewayPath, p.connectVerifiedAt, p.connectVerifiedBy)
  }

  predicate HasAcceptProof(p: SSHProof) {
    !p.acceptKeyID.Empty? || !p.acceptGatewayPath.Empty? || !p.acceptVerifiedAt.Empty? || !p.acceptVerifiedBy.Empty?
  }

  predicate HasConnectProof(p: SSHProof) {
    !p.connectKeyID.Empty? || !p.connectGatewayPath.Empty? || !p.connectVerifiedAt.Empty? || !p.connectVerifiedBy.Empty?
  }

  /** Enabled directions have complete proofs. */
  predicate EnabledProofsOk(env: Env, peer: SSHPeer) {
    && (peer.enabled && peer.accept ==> AcceptProofOk(env, peer.proof))
    && (peer.enabled && peer.connect ==> ConnectProofOk(env, peer.proof))
  }

  predicate KnownState(s: Txt) {
    s.Loopback? || s.Staged? || s.Written? || s.Ready? || s.Failed?
  }

  predicate PeerBasicsOk(env: Env, hostname: Txt, peer: SSHPeer) {
    && env.hostIDOk(peer.id)
    && (hostname.Empty? || peer.id != hostname)
    && 0 <= peer.sshPort <= 65535
    && (peer.installPath.Empty? || env.pathOk(peer.installPath))
    && (peer.gatewayPath.Empty? || env.pathOk(peer.gatewayPath))
  }

  predicate PeerActiveOk(env: Env, peer: SSHPeer) {
    && (peer.migrationState.Empty? || KnownState(peer.migrationState))
    && (if peer.connect
        then !peer.sshHost.Empty? && !peer.sshUser.Empty? && peer.sshPort != 0
             && env.userOk(peer.sshUser) && env.canonicalHost(peer.sshHost).Some?
        else !peer.persistent && !peer.onDemand)
    && (HasAcceptProof(peer.proof) ==> AcceptProofOk(env, peer.proof))
    && (HasConnectProof(peer.proof) ==> ConnectProofOk(env, peer.proof))
    && (peer.migrationState.Ready? ==> EnabledProofsOk(env, peer))
  }

  predicate PeerOk(env: Env, hostname: Txt, peer: SSHPeer, active: bool) {
    PeerBasicsOk(env, hostname, peer) && (active ==> PeerActiveOk(env, peer))
  }

  predicate LimitsOk(env: Env, ssh: SSHConfig) {
    && ssh.maxSessions >= 0 && ssh.maxSessionsPerPeer >= 0
    && (ssh.maxSessions > 0 ==> ssh.maxSessionsPerPeer <= ssh.maxSessions)
    && ssh.logLimitBytes >= 0
    && (ssh.syncKey.Empty? || env.pathOk(ssh.syncKey))
    && (ssh.knownHosts.Empty? || env.pathOk(ssh.knownHosts))
  }

  /** Peers whose connection target counts for the duplicate test. */
  predicate Dials(active: bool, peer: SSHPeer) {
    active && peer.enabled && peer.connect
  }

  predicate SameTarget(env: Env, a: SSHPeer, b: SSHPeer) {
    TargetOf(env, a) == TargetOf(env, b)
  }

  /** Two peers may stand in one configuration. */
  predicate Compatible(env: Env, active: bool, a: SSHPeer, b: SSHPeer) {
    a.id != b.id && !(Dials(active, a) && Dials(active, b) && SameTarget(env, a, b))
  }

  predicate PeersOk(env: Env, hostname: Txt, peers: seq<SSHPeer>, active: bool) {
    && (forall i :: 0 <= i < |peers| ==> PeerOk(env, hostname, peers[i], active))
    && (forall i, j :: 0 <= i < j < |peers| ==> Compatible(env, active, peers[i], peers[j]))
  }

  predicate TransportOk(env: Env, cfg: Config) {
    && (cfg.transport.Empty? || cfg.transport.TransportSSH?)
    && (cfg.ssh.Some? ==> LimitsOk(env, cfg.ssh.value) && PeersOk(env, cfg.hostname, cfg.ssh.value.peers, cfg.transport.TransportSSH?))
  }

  /** One more peer is fine when it is fine alone and clashes with no earlier one. */
  lemma OneMorePeer(env: Env, hostname: Txt, peers: seq<SSHPeer>, active: bool, peer: SSHPeer)
    requires PeersOk(env, hostname, peers, active)
    ensures PeersOk(env, hostname, peers + [peer], active) <==>
      PeerOk(env, hostname, peer, active) && forall j :: 0 <= j < |peers| ==> Compatible(env, active, peers[j], peer)
  {
    var after := peers + [peer];
    assert after[|peers|] == peer;
    if PeersOk(env, hostname, after, active) {
      forall j | 0 <= j < |peers|
        ensures Compatible(env, active, peers[j], peer)
      {
        assert after[j] == peers[j];
        assert Compatible(env, active, after[j], after[|peers|]);
      }
    }
  }

  lemma FewerPeersOk(env: Env, hostname: Txt, peers: seq<SSHPeer>, active: bool, n: nat)
    requires n <= |peers| && PeersOk(env, hostname, peers, active)
    ensures PeersOk(env, hostname, peers[..n], active)
  {
  }

  /** The validation loop with its seen and targets maps computes TransportOk. */
  method ValidateTransport(env: Env, cfg: Config) returns (ok: bool)
    ensures ok <==> TransportOk(env, cfg)
  {
    var active := cfg.transport.TransportSSH?;
    if !active && !cfg.transport.Empty? {
      return false;
    }
    if cfg.ssh.None? {
      return true;
    }
    var ssh := cfg.ssh.value;
    if !LimitsOk(env, ssh) {
      return false;
    }
    ok := ValidatePeers(env, cfg.hostname, ssh.peers, active);
  }

  /** The ids and dialled targets of some peers, as the loop collects them. */
  ghost predicate Collected(env: Env, active: bool, peers: seq<SSHPeer>, seen: set<Txt>, targets: set<(Txt, Option<Txt>, int)>) {
    && seen == (set p | p in peers :: p.id)
    && targets == (set p | p in peers && Dials(active, p) :: TargetOf(env, p))
  }

  lemma ClashIffIncompatible(env: Env, active: bool, peers: seq<SSHPeer>, seen: set<Txt>, targets: set<(Txt, Option<Txt>, int)>, peer: SSHPeer)
    requires Collected(env, active, peers, seen, targets)
    ensures (peer.id in seen || (Dials(active, peer) && TargetOf(env, peer) in targets)) <==>
            !(forall j :: 0 <= j < |peers| ==> Compatible(env, active, peers[j], peer))
  {
    if peer.id in seen {
      var p :| p in peers && p.id == peer.id;
      assert !Compatible(env, active, p, peer);
    } else if Dials(active, peer) && TargetOf(env, peer) in targets {
      var p :| p in peers && Dials(active, p) && TargetOf(env, p) == TargetOf(env, peer);
      assert !Compatible(env, active, p, peer);
    } else {
      forall j | 0 <= j < |peers|
        ensures Compatible(env, active, peers[j], peer)
      {
        assert peers[j] in peers;
      }
    }
  }

  method ValidatePeers(env: Env, hostname: Txt, peers: seq<SSHPeer>, active: bool) returns (ok: bool)
    ensures ok <==> PeersOk(env, hostname, peers, active)
  {
    var seen: set<Txt> := {};
    var targets: set<(Txt, Option<Txt>, int)> := {};
    for i := 0 to |peers|
      invariant PeersOk(env, hostname, peers[..i], active)
      invariant Collected(env, active, peers[..i], seen, targets)
    {
      var peer := peers[i];
      assert peers[..i + 1] == peers[..i] + [peer];
      OneMorePeer(env, hostname, peers[..i], active, peer);
      ClashIffIncompatible(env, active, peers[..i], seen, targets, peer);
      if !PeerOk(env, hostname, peer, active) || peer.id in seen || (Dials(active, peer) && TargetOf(env, peer) in targets) {
        if PeersOk(env, hostname, peers, active) {
          FewerPeersOk(env, hostname, peers, active, i + 1);
        }
        return false;
      }
      seen := seen + {peer.id};
      if Dials(active, peer) {
        targets := targets + {TargetOf(env, peer)};
      }
    }
    assert peers[..|peers|] == peers;
    return true;
  }

  /** What makes two dialled targets the same: the key of the targets map. */
  function TargetOf(env: Env, peer: SSHPeer): (Txt, Option<Txt>, int) {
    (peer.sshUser, env.canonicalHost(peer.sshHost), peer.sshPort)
  }
}
