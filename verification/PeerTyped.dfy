/** The typed view of a raw peer after an upsert, a proof patch or a transition. */
module PeerTypedViews {
  import opened Wrappers
  import opened Jsons
  import opened Configs
  import opened PeerOps
  import opened PeerEffects

  // ---- upsert with every locator field and flag given ----

  predicate Complete(f: UpsertFields) {
    && f.enabled.Some? && f.accept.Some? && f.connect.Some? && f.persistent.Some? && f.onDemand.Some?
    && f.sshHost.Some? && f.sshUser.Some? && f.sshPort.Some? && f.installPath.Some? && f.gatewayPath.Some?
  }

  lemma FlagsView(peer: Fields, f: UpsertFields)
    requires Complete(f)
    ensures var o := WithFlags(peer, f);
      && Enabled in o && o[Enabled] == Bool(f.enabled.value)
      && Accept in o && o[Accept] == Bool(f.accept.value)
      && Connect in o && o[Connect] == Bool(f.connect.value)
      && Persistent in o && o[Persistent] == Bool(f.persistent.value)
      && OnDemand in o && o[OnDemand] == Bool(f.onDemand.value)
  {
  }

  lemma LocatorView(env: Env, peer: Fields, f: UpsertFields)
    requires Complete(f) && env.canonicalHost(f.sshHost.value).Some?
    ensures var o := WithLocator(env, peer, f);
      && SshHost in o && o[SshHost] == Str(env.canonicalHost(f.sshHost.value).value)
      && SshUser in o && o[SshUser] == Str(f.sshUser.value)
      && SshPort in o && o[SshPort] == Num(f.sshPort.value)
      && InstallPath in o && o[InstallPath] == Str(f.installPath.value)
      && GatewayPath in o && o[GatewayPath] == Str(f.gatewayPath.value)
  {
  }

  /** The typed peer with the given locator and flags. */
  function Located(env: Env, id: Txt, f: UpsertFields, state: Txt, proof: SSHProof): SSHPeer
    requires Complete(f) && env.canonicalHost(f.sshHost.value).Some?
  {
    SSHPeer(id, env.canonicalHost(f.sshHost.value).value, f.sshUser.value, f.sshPort.value, f.installPath.value, f.gatewayPath.value,
            f.enabled.value, f.accept.value, f.connect.value, f.persistent.value, f.onDemand.value, state, proof)
  }

  lemma FlaggedView(env: Env, peer: Fields, f: UpsertFields)
    requires Complete(f)
    ensures var o := WithLocator(env, WithFlags(peer, f), f);
      && Enabled in o && o[Enabled] == Bool(f.enabled.value)
      && Accept in o && o[Accept] == Bool(f.accept.value)
      && Connect in o && o[Connect] == Bool(f.connect.value)
      && Persistent in o && o[Persistent] == Bool(f.persistent.value)
      && OnDemand in o && o[OnDemand] == Bool(f.onDemand.value)
  {
    var o := WithFlags(peer, f);
    FlagsView(peer, f);
    LocatorKeeps(env, o, f, Enabled);
    LocatorKeeps(env, o, f, Accept);
    LocatorKeeps(env, o, f, Connect);
    LocatorKeeps(env, o, f, Persistent);
    LocatorKeeps(env, o, f, OnDemand);
  }

  lemma UpsertedKeeps(env: Env, peer: Fields, f: UpsertFields, k: Key)
    requires k.Id? || k.Proof? || k.MigrationLog?
    ensures k in Upserted(env, peer, f) <==> k in peer
    ensures k in peer ==> Upserted(env, peer, f)[k] == peer[k]
  {
    var staged := SetStr(peer, MigrationState, f.state);
    FlagsKeep(staged, f, k);
    LocatorKeeps(env, WithFlags(staged, f), f, k);
  }

  lemma UpsertedState(env: Env, peer: Fields, f: UpsertFields)
    ensures var o := Upserted(env, peer, f);
      if f.state.Some? then MigrationState in o && o[MigrationState] == Str(f.state.value)
      else (MigrationState in o <==> MigrationState in peer) && (MigrationState in peer ==> o[MigrationState] == peer[MigrationState])
  {
    var staged := SetStr(peer, MigrationState, f.state);
    FlagsKeep(staged, f, MigrationState);
    LocatorKeeps(env, WithFlags(staged, f), f, MigrationState);
  }

  /** Reads like a peer with these fields. */
  lemma ViewOf(env: Env, o: Fields, id: Txt, f: UpsertFields, state: Txt, proof: SSHProof)
    requires Complete(f) && env.canonicalHost(f.sshHost.value).Some?
    requires StrOk(o, Id) && StrAt(o, Id) == id
    requires StrOk(o, MigrationState) && StrAt(o, MigrationState) == state
    requires (Absent(o, Proof) || (o[Proof].Obj? && ProofTyped(o[Proof].fields))) && ProofView(ObjAt(o, Proof)) == proof
    requires SshHost in o && o[SshHost] == Str(env.canonicalHost(f.sshHost.value).value)
    requires SshUser in o && o[SshUser] == Str(f.sshUser.value)
    requires SshPort in o && o[SshPort] == Num(f.sshPort.value)
    requires InstallPath in o && o[InstallPath] == Str(f.installPath.value)
    requires GatewayPath in o && o[GatewayPath] == Str(f.gatewayPath.value)
    requires Enabled in o && o[Enabled] == Bool(f.enabled.value)
    requires Accept in o && o[Accept] == Bool(f.accept.value)
    requires Connect in o && o[Connect] == Bool(f.connect.value)
    requires Persistent in o && o[Persistent] == Bool(f.persistent.value)
    requires OnDemand in o && o[OnDemand] == Bool(f.onDemand.value)
    ensures PeerTyped(o) && PeerView(o) == Located(env, id, f, state, proof)
  {
  }

  /** A complete upsert decides every typed field but the id, the state it was
      not given, and the proofs. */
  lemma UpsertedView(env: Env, peer: Fields, f: UpsertFields)
    requires Complete(f) && env.canonicalHost(f.sshHost.value).Some?
    requires StrOk(peer, Id) && StrOk(peer, MigrationState)
    requires Absent(peer, Proof) || (peer[Proof].Obj? && ProofTyped(peer[Proof].fields))
    ensures var o := Upserted(env, peer, f);
      && PeerTyped(o)
      && PeerView(o) == Located(env, StrAt(peer, Id), f, if f.state.Some? then f.state.value else StrAt(peer, MigrationState), ProofView(ObjAt(peer, Proof)))
  {
    var staged := SetStr(peer, MigrationState, f.state);
    LocatorView(env, WithFlags(staged, f), f);
    FlaggedView(env, staged, f);
    UpsertedKeeps(env, peer, f, Id);
    UpsertedKeeps(env, peer, f, Proof);
    UpsertedState(env, peer, f);
    ViewOf(env, Upserted(env, peer, f), StrAt(peer, Id), f, if f.state.Some? then f.state.value else StrAt(peer, MigrationState), ProofView(ObjAt(peer, Proof)));
  }

  // ---- proofs ----

  function Proved(accept: ProofPatch, connect: ProofPatch): SSHProof {
    SSHProof(accept.keyID, accept.gatewayPath, accept.verifiedAt, accept.verifiedBy,
             connect.keyID, connect.gatewayPath, connect.verifiedAt, connect.verifiedBy)
  }

  lemma PatchedProofView(proof: Fields, accept: ProofPatch, connect: ProofPatch)
    ensures ProofTyped(PatchedProof(proof, Some(accept), Some(connect)))
    ensures ProofView(PatchedProof(proof, Some(accept), Some(connect))) == Proved(accept, connect)
  {
  }

  lemma PatchedView(peer: Fields, accept: ProofPatch, connect: ProofPatch)
    requires PeerTyped(peer)
    ensures var o := peer[Proof := Obj(PatchedProof(ObjAt(peer, Proof), Some(accept), Some(connect)))];
      PeerTyped(o) && PeerView(o) == PeerView(peer).(proof := Proved(accept, connect))
  {
    PatchedProofView(ObjAt(peer, Proof), accept, connect);
  }

  // ---- transitions that go forward ----

  lemma StateAndLogView(peer: Fields, state: Txt, log: seq<Json>, o: Fields)
    requires PeerTyped(peer) && o == peer[MigrationState := Str(state)][MigrationLog := Arr(log)]
    ensures PeerTyped(o) && PeerView(o) == PeerView(peer).(migrationState := state) && ListOk(o, MigrationLog)
  {
  }

  lemma MovedView(peer: Fields, m: Move)
    requires PeerTyped(peer) && !m.next.Loopback? && Moved(peer, m).Ok?
    ensures PeerTyped(Moved(peer, m).value) && PeerView(Moved(peer, m).value) == PeerView(peer).(migrationState := m.next)
    ensures ListOk(Moved(peer, m).value, MigrationLog)
  {
    var o := Moved(peer, m).value;
    StateAndLogView(peer, m.next, ItemsAt(peer, MigrationLog) + [LogEntry(m)], o);
  }
}
