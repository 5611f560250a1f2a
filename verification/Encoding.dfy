/** The JSON encoding of a typed ssh section: what encoding/json writes for the
    structures of internal/config/ssh.go. Empty fields are left out, except the
    peer id and the proof object. */
module Encodings {
  import opened Wrappers
  import opened Jsons
  import opened Configs

  /** What "omitempty" leaves out. */
  predicate Omitted(j: Json) {
    j == Null || j == Str(Empty) || j == Num(0) || j == Bool(false)
  }

  /** An object without its empty fields, apart from those always written. */
  function Compact(o: Fields, always: set<Key>): Fields {
    map k | k in o && (k in always || !Omitted(o[k])) :: o[k]
  }

  // ---- the three structures ----

  function ProofFields(p: SSHProof): Fields {
    map[AcceptKeyID := Str(p.acceptKeyID), AcceptGatewayPath := Str(p.acceptGatewayPath),
        AcceptVerifiedAt := Str(p.acceptVerifiedAt), AcceptVerifiedBy := Str(p.acceptVerifiedBy),
        ConnectKeyID := Str(p.connectKeyID), ConnectGatewayPath := Str(p.connectGatewayPath),
        ConnectVerifiedAt := Str(p.connectVerifiedAt), ConnectVerifiedBy := Str(p.connectVerifiedBy)]
  }

  function EncodeProof(p: SSHProof): Fields {
    Compact(ProofFields(p), {})
  }

  function PeerFields(p: SSHPeer): Fields {
    map[Id := Str(p.id), SshHost := Str(p.sshHost), SshUser := Str(p.sshUser), SshPort := Num(p.sshPort),
        InstallPath := Str(p.installPath), GatewayPath := Str(p.gatewayPath),
        Enabled := Bool(p.enabled), Accept := Bool(p.accept), Connect := Bool(p.connect),
        Persistent := Bool(p.persistent), OnDemand := Bool(p.onDemand),
        MigrationState := Str(p.migrationState), Proof := Obj(EncodeProof(p.proof))]
  }

  function EncodePeer(p: SSHPeer): Fields {
    Compact(PeerFields(p), {Id})
  }

  function EncodePeers(peers: seq<SSHPeer>): seq<Fields> {
    seq(|peers|, i requires 0 <= i < |peers| => EncodePeer(peers[i]))
  }

  function SectionFields(s: SSHConfig): Fields {
    map[SyncKey := Str(s.syncKey), KnownHosts := Str(s.knownHosts), MaxSessions := Num(s.maxSessions),
        MaxSessionsPerPeer := Num(s.maxSessionsPerPeer), LogLimitBytes := Num(s.logLimitBytes),
        Peers := if s.peers == [] then Null else PeersJson(EncodePeers(s.peers))]
  }

  function EncodeSSH(s: SSHConfig): Fields {
    Compact(SectionFields(s), {})
  }

  // ---- reading the encoding back ----

  /** An omitted field reads as the zero it was. */
  lemma CompactReads(o: Fields, always: set<Key>, k: Key)
    ensures var c := Compact(o, always);
      && (StrOk(o, k) ==> StrOk(c, k)) && StrAt(c, k) == StrAt(o, k)
      && (NumOk(o, k) ==> NumOk(c, k)) && NumAt(c, k) == NumAt(o, k)
      && (BoolOk(o, k) ==> BoolOk(c, k)) && BoolAt(c, k) == BoolAt(o, k)
      && (k in o && (o[k].Obj? || o[k].Arr?) ==> k in c && c[k] == o[k])
      && (Absent(o, k) ==> Absent(c, k))
  {
  }

  lemma CompactProof(o: Fields, c: Fields)
    requires c == Compact(o, {}) && ProofTyped(o)
    ensures ProofTyped(c) && ProofView(c) == ProofView(o)
  {
    forall k {
      CompactReads(o, {}, k);
    }
  }

  lemma ProofReadsBack(p: SSHProof)
    ensures ProofTyped(EncodeProof(p)) && ProofView(EncodeProof(p)) == p
  {
    CompactProof(ProofFields(p), EncodeProof(p));
  }

  lemma CompactPeer(o: Fields, c: Fields)
    requires c == Compact(o, {Id}) && PeerTyped(o) && Proof in o && o[Proof].Obj?
    ensures PeerTyped(c) && PeerView(c) == PeerView(o)
    ensures Proof in c && c[Proof] == o[Proof]
  {
    forall k {
      CompactReads(o, {Id}, k);
    }
  }

  lemma LocatorsRead(p: SSHPeer, o: Fields)
    requires o == PeerFields(p)
    ensures StrOk(o, Id) && StrAt(o, Id) == p.id && StrOk(o, SshHost) && StrAt(o, SshHost) == p.sshHost
    ensures StrOk(o, SshUser) && StrAt(o, SshUser) == p.sshUser && NumOk(o, SshPort) && NumAt(o, SshPort) == p.sshPort
    ensures StrOk(o, InstallPath) && StrAt(o, InstallPath) == p.installPath
    ensures StrOk(o, GatewayPath) && StrAt(o, GatewayPath) == p.gatewayPath
  {
  }

  lemma StatesRead(p: SSHPeer, o: Fields)
    requires o == PeerFields(p)
    ensures BoolOk(o, Enabled) && BoolAt(o, Enabled) == p.enabled && BoolOk(o, Accept) && BoolAt(o, Accept) == p.accept
    ensures BoolOk(o, Connect) && BoolAt(o, Connect) == p.connect && BoolOk(o, Persistent) && BoolAt(o, Persistent) == p.persistent
    ensures BoolOk(o, OnDemand) && BoolAt(o, OnDemand) == p.onDemand
    ensures StrOk(o, MigrationState) && StrAt(o, MigrationState) == p.migrationState
    ensures Proof in o && o[Proof] == Obj(EncodeProof(p.proof))
  {
  }

  lemma PeerFieldsRead(p: SSHPeer) returns (o: Fields)
    ensures o == PeerFields(p)
    ensures PeerTyped(o) && Proof in o && o[Proof] == Obj(EncodeProof(p.proof))
    ensures PeerView(o) == p
  {
    o := PeerFields(p);
    ProofReadsBack(p.proof);
    LocatorsRead(p, o);
    StatesRead(p, o);
  }

  lemma PeerReadsBack(p: SSHPeer)
    ensures PeerTyped(EncodePeer(p)) && PeerView(EncodePeer(p)) == p
    ensures ObjAt(EncodePeer(p), Proof) == EncodeProof(p.proof)
  {
    var o := PeerFieldsRead(p);
    CompactPeer(o, EncodePeer(p));
  }

  lemma PeersReadBack(s: SSHConfig)
    ensures PeersShaped(EncodeSSH(s)) && PeersAt(EncodeSSH(s)) == EncodePeers(s.peers)
    ensures PeersTyped(EncodePeers(s.peers)) && PeerViews(EncodePeers(s.peers)) == s.peers
  {
    var o, peers := EncodeSSH(s), EncodePeers(s.peers);
    CompactReads(SectionFields(s), {}, Peers);
    if s.peers != [] {
      PeersRoundTrip(o, peers);
      assert o[Peers := PeersJson(peers)] == o;
    }
    forall i | 0 <= i < |s.peers|
      ensures PeerTyped(peers[i]) && PeerView(peers[i]) == s.peers[i]
    {
      PeerReadsBack(s.peers[i]);
    }
  }

  /** Decoding undoes encoding, for every typed ssh section. */
  lemma SSHReadsBack(s: SSHConfig)
    ensures SSHTyped(EncodeSSH(s)) && SSHView(EncodeSSH(s)) == s
  {
    forall k {
      CompactReads(SectionFields(s), {}, k);
    }
    PeersReadBack(s);
  }

  // ---- what the encoding has room for ----

  predicate TypedProofKey(k: Key) {
    || k.AcceptKeyID? || k.AcceptGatewayPath? || k.AcceptVerifiedAt? || k.AcceptVerifiedBy?
    || k.ConnectKeyID? || k.ConnectGatewayPath? || k.ConnectVerifiedAt? || k.ConnectVerifiedBy?
  }

  predicate TypedPeerKey(k: Key) {
    || k.Id? || k.SshHost? || k.SshUser? || k.SshPort? || k.InstallPath? || k.GatewayPath? || k.Enabled? || k.Accept?
    || k.Connect? || k.Persistent? || k.OnDemand? || k.MigrationState? || k.Proof?
  }

  predicate TypedSSHKey(k: Key) {
    k.SyncKey? || k.KnownHosts? || k.MaxSessions? || k.MaxSessionsPerPeer? || k.LogLimitBytes? || k.Peers?
  }

  lemma ProofKeysTyped(p: SSHProof, k: Key)
    ensures k in EncodeProof(p) ==> TypedProofKey(k)
  {
    assert k in EncodeProof(p) ==> k in ProofFields(p);
  }

  lemma PeerKeysTyped(p: SSHPeer, k: Key)
    ensures k in EncodePeer(p) ==> TypedPeerKey(k)
  {
    CompactKeys(PeerFields(p), {Id}, k);
    PeerFieldKeys(p, k);
  }

  lemma CompactKeys(o: Fields, always: set<Key>, k: Key)
    ensures k in Compact(o, always) ==> k in o
  {
  }

  lemma PeerFieldKeys(p: SSHPeer, k: Key)
    ensures k in PeerFields(p) ==> TypedPeerKey(k)
  {
  }

  lemma SSHKeysTyped(s: SSHConfig, k: Key)
    ensures k in EncodeSSH(s) ==> TypedSSHKey(k)
  {
    assert k in EncodeSSH(s) ==> k in SectionFields(s);
  }
}
