/** What a successful peer operation does to the document: it reads back as the
    checked configuration, and touches nothing but its own peer and the logs. */
module PeerEffects {
  import opened Wrappers
  import opened Jsons
  import opened Scrubs
  import opened Configs
  import opened Documents
  import opened PeerOps
  import opened PeerLists

  /** Equal fields outside the peers and the two logs. */
  ghost predicate SameButLogs(a: Fields, b: Fields) {
    forall k :: k != Peers && k != AuditLog && k != Remediation ==> (k in a <==> k in b) && (k in a ==> a[k] == b[k])
  }

  /** The ssh section an operation may leave. */
  ghost predicate EditedFrom(env: Env, cfg: Config, ssh: Fields, edited: Fields) {
    SameButLogs(ssh, edited) || edited == PersistedPaths(env, ssh, cfg)
  }

  lemma DisableEditsFrom(env: Env, ssh: Fields, peers: seq<Fields>, id: Txt, reason: Txt, at: Txt)
    requires ApplyDisable(env, ssh, peers, id, reason, at).Ok?
    ensures SameButLogs(ssh, ApplyDisable(env, ssh, peers, id, reason, at).value.ssh)
  {
  }

  lemma DeleteEditsFrom(env: Env, ssh: Fields, peers: seq<Fields>, id: Txt, reason: Txt, logID: Txt, at: Txt)
    requires ApplyDelete(env, ssh, peers, id, reason, logID, at).Ok?
    ensures SameButLogs(ssh, ApplyDelete(env, ssh, peers, id, reason, logID, at).value.ssh)
  {
  }

  lemma UpsertEditsFrom(env: Env, cfg: Config, ssh: Fields, peers: seq<Fields>, id: Txt, f: UpsertFields)
    requires ApplyUpsert(env, cfg, ssh, peers, id, f).Ok?
    ensures ApplyUpsert(env, cfg, ssh, peers, id, f).value.ssh == PersistedPaths(env, ssh, cfg)
  {
  }

  lemma PatchEditsFrom(env: Env, ssh: Fields, peers: seq<Fields>, id: Txt, accept: Option<ProofPatch>, connect: Option<ProofPatch>)
    requires ApplyProofPatch(env, ssh, peers, id, accept, connect).Ok?
    ensures ApplyProofPatch(env, ssh, peers, id, accept, connect).value.ssh == ssh
  {
  }

  lemma TransitionEditsFrom(env: Env, ssh: Fields, peers: seq<Fields>, id: Txt, m: Move)
    requires ApplyTransition(env, ssh, peers, id, m).Ok?
    ensures ApplyTransition(env, ssh, peers, id, m).value.ssh == ssh
  {
  }

  lemma ApplyOpEditsFrom(env: Env, cfg: Config, ssh: Fields, peers: seq<Fields>, id: Txt, op: PeerOp)
    requires ApplyOp(env, cfg, ssh, peers, id, op).Ok?
    ensures EditedFrom(env, cfg, ssh, ApplyOp(env, cfg, ssh, peers, id, op).value.ssh)
  {
    match op
    case Upsert(f) => UpsertEditsFrom(env, cfg, ssh, peers, id, f);
    case PatchProof(accept, connect) => PatchEditsFrom(env, ssh, peers, id, accept, connect);
    case Transition(m) => TransitionEditsFrom(env, ssh, peers, id, m);
    case Disable(why, at) => DisableEditsFrom(env, ssh, peers, id, why, at);
    case Delete(reason, logID, at) => DeleteEditsFrom(env, ssh, peers, id, reason, logID, at);
  }

  /** Every edit of an editor keeps the rest of the ssh section. */
  ghost predicate KeepsSection(env: Env, apply: Document -> Result<Edit>) {
    forall doc :: apply(doc).Ok? ==> EditedFrom(env, doc.config, ObjAt(doc.raw, Ssh), apply(doc).value.ssh)
  }

  lemma EditorKeepsSection(env: Env, id: Txt, op: PeerOp)
    ensures KeepsSection(env, Editor(env, id, op))
  {
    forall doc: Document | Editor(env, id, op)(doc).Ok?
      ensures EditedFrom(env, doc.config, ObjAt(doc.raw, Ssh), Editor(env, id, op)(doc).value.ssh)
    {
      ApplyOpEditsFrom(env, doc.config, ObjAt(doc.raw, Ssh), PeersAt(ObjAt(doc.raw, Ssh)), id, op);
    }
  }

  lemma SectionView(edited: Fields, peers: seq<Fields>)
    requires StrOk(edited, SyncKey) && StrOk(edited, KnownHosts)
    requires NumOk(edited, MaxSessions) && NumOk(edited, MaxSessionsPerPeer) && NumOk(edited, LogLimitBytes)
    requires PeersTyped(peers)
    ensures var o := edited[Peers := PeersJson(peers)];
      && SSHTyped(o)
      && SSHView(o) == SSHConfig(StrAt(edited, SyncKey), StrAt(edited, KnownHosts), NumAt(edited, MaxSessions),
                                 NumAt(edited, MaxSessionsPerPeer), NumAt(edited, LogLimitBytes), PeerViews(peers))
      && PeersAt(o) == peers
  {
    PeersRoundTrip(edited, peers);
  }

  /** Expanding a path that was written back expanded changes nothing. */
  lemma PersistedReadsSame(env: Env, ssh: Fields, cfg: Config)
    requires env.WellFormed() && SSHTyped(ssh)
    requires cfg.ssh == Some(NormalizedSSH(env, SSHView(ssh))) && LimitsOk(env, cfg.ssh.value)
    ensures var o := PersistedPaths(env, ssh, cfg);
      && StrOk(o, SyncKey) && StrOk(o, KnownHosts)
      && NumOk(o, MaxSessions) && NumOk(o, MaxSessionsPerPeer) && NumOk(o, LogLimitBytes)
      && NumAt(o, MaxSessions) == NumAt(ssh, MaxSessions)
      && NumAt(o, MaxSessionsPerPeer) == NumAt(ssh, MaxSessionsPerPeer)
      && NumAt(o, LogLimitBytes) == NumAt(ssh, LogLimitBytes)
      && StrAt(o, SyncKey) == cfg.ssh.value.syncKey
      && StrAt(o, KnownHosts) == cfg.ssh.value.knownHosts
  {
    NormalizedIsStable(env, cfg.ssh.value);
  }

  lemma SameButLogsView(a: Fields, b: Fields)
    requires SameButLogs(a, b)
    ensures StrOk(a, SyncKey) == StrOk(b, SyncKey) && StrAt(a, SyncKey) == StrAt(b, SyncKey)
    ensures StrOk(a, KnownHosts) == StrOk(b, KnownHosts) && StrAt(a, KnownHosts) == StrAt(b, KnownHosts)
    ensures NumOk(a, MaxSessions) == NumOk(b, MaxSessions) && NumAt(a, MaxSessions) == NumAt(b, MaxSessions)
    ensures NumOk(a, MaxSessionsPerPeer) == NumOk(b, MaxSessionsPerPeer) && NumAt(a, MaxSessionsPerPeer) == NumAt(b, MaxSessionsPerPeer)
    ensures NumOk(a, LogLimitBytes) == NumOk(b, LogLimitBytes) && NumAt(a, LogLimitBytes) == NumAt(b, LogLimitBytes)
  {
  }

  /** The edited section, expanded, is the given typed section with new peers. */
  ghost predicate ReadsWithPeers(env: Env, edit: Edit, ssh: SSHConfig) {
    var o := edit.ssh[Peers := PeersJson(edit.peers)];
    && SSHTyped(o)
    && NormalizedSSH(env, SSHView(o)) == ssh.(peers := PeerViews(edit.peers))
    && (NeedsHome(env, SSHView(o)) ==> env.homeKnown)
  }

  lemma LoggedSectionReadsAs(env: Env, section: Fields, edit: Edit)
    requires SSHTyped(section) && (NeedsHome(env, SSHView(section)) ==> env.homeKnown)
    requires SameButLogs(section, edit.ssh) && PeersTyped(edit.peers)
    ensures ReadsWithPeers(env, edit, NormalizedSSH(env, SSHView(section)))
  {
    SameButLogsView(section, edit.ssh);
    SectionView(edit.ssh, edit.peers);
  }

  lemma PersistedSectionReadsAs(env: Env, section: Fields, cfg: Config, edit: Edit)
    requires env.WellFormed() && SSHTyped(section) && PeersTyped(edit.peers)
    requires cfg.ssh == Some(NormalizedSSH(env, SSHView(section))) && LimitsOk(env, cfg.ssh.value)
    requires edit.ssh == PersistedPaths(env, section, cfg)
    ensures ReadsWithPeers(env, edit, cfg.ssh.value)
  {
    PersistedReadsSame(env, section, cfg);
    SectionView(edit.ssh, edit.peers);
    NormalizedIsStable(env, cfg.ssh.value);
  }

  function SectionOf(cfg: Config): SSHConfig {
    if cfg.ssh.Some? then cfg.ssh.value else NO_SSH
  }

  lemma EditReadsWithPeers(env: Env, section: Fields, cfg: Config, edit: Edit)
    requires env.WellFormed() && SSHTyped(section) && (NeedsHome(env, SSHView(section)) ==> env.homeKnown)
    requires SectionOf(cfg) == NormalizedSSH(env, SSHView(section)) && (cfg.ssh.Some? ==> LimitsOk(env, cfg.ssh.value))
    requires EditedFrom(env, cfg, section, edit.ssh) && PeersTyped(edit.peers)
    ensures ReadsWithPeers(env, edit, SectionOf(cfg))
  {
    if SameButLogs(section, edit.ssh) {
      LoggedSectionReadsAs(env, section, edit);
    } else if cfg.ssh.Some? {
      PersistedSectionReadsAs(env, section, cfg, edit);
    } else {
      assert edit.ssh == section;
      LoggedSectionReadsAs(env, section, edit);
    }
  }

  lemma SectionReads(env: Env, raw: Fields, cfg: Config)
    requires env.WellFormed() && SSHReadsAs(env, raw, cfg.ssh)
    ensures var section := ObjAt(raw, Ssh);
      && SSHTyped(section) && (NeedsHome(env, SSHView(section)) ==> env.homeKnown)
      && SectionOf(cfg) == NormalizedSSH(env, SSHView(section))
  {
    if cfg.ssh.None? {
      assert SSHView(ObjAt(raw, Ssh)) == NO_SSH;
    }
  }

  /** The written ssh section reads as the checked one. */
  lemma EditReadsAs(env: Env, raw: Fields, cfg: Config, edit: Edit)
    requires env.WellFormed() && TransportOk(env, cfg)
    requires SSHReadsAs(env, raw, cfg.ssh)
    requires EditedFrom(env, cfg, ObjAt(raw, Ssh), edit.ssh) && PeersTyped(edit.peers)
    ensures SSHReadsAs(env, WithEdit(raw, edit), WithPeers(cfg, edit.peers).ssh)
  {
    SectionReads(env, raw, cfg);
    EditReadsWithPeers(env, ObjAt(raw, Ssh), cfg, edit);
    WithPeersReads(env, raw, edit, SectionOf(cfg));
  }

  lemma WithPeersReads(env: Env, raw: Fields, edit: Edit, ssh: SSHConfig)
    requires ReadsWithPeers(env, edit, ssh)
    ensures SSHReadsAs(env, WithEdit(raw, edit), Some(ssh.(peers := PeerViews(edit.peers))))
  {
  }

  lemma PreservingWrites(env: Env, raw: Fields, cfg: Config, next: nat)
    requires Ssh in raw && cfg.ssh.Some? && SSHReadsAs(env, raw, cfg.ssh)
    ensures WrittenFrom(env, MarshalPreserving(raw, cfg, next), raw, cfg, next)
  {
  }

  lemma EditedReadsBack(env: Env, raw: Fields, cfg: Config, edit: Edit, next: nat)
    requires env.WellFormed() && TransportOk(env, cfg) && SSHReadsAs(env, raw, cfg.ssh)
    requires EditedFrom(env, cfg, ObjAt(raw, Ssh), edit.ssh) && PeersTyped(edit.peers)
    requires TransportOk(env, WithPeers(cfg, edit.peers)) && 1 <= next <= MAX_UINT64
    ensures var out := MarshalPreserving(WithEdit(raw, edit), WithPeers(cfg, edit.peers), next);
      Parse(env, out) == Ok(Document(WithPeers(cfg, edit.peers), Versioned, Some(next), out))
  {
    EditReadsAs(env, raw, cfg, edit);
    var edited, checked := WithEdit(raw, edit), WithPeers(cfg, edit.peers);
    PreservingWrites(env, edited, checked, next);
    WrittenReadsBack(env, MarshalPreserving(edited, checked, next), edited, checked, next);
  }

  lemma CommitWrites(env: Env, doc: Document, edit: Edit, out: Fields)
    requires doc.state.Versioned? && doc.revision.Some? && Commit(env, doc, edit) == Ok(out)
    ensures PeersTyped(edit.peers) && TransportOk(env, WithPeers(doc.config, edit.peers))
    ensures doc.revision.value + 1 <= MAX_UINT64
    ensures out == MarshalPreserving(WithEdit(doc.raw, edit), WithPeers(doc.config, edit.peers), doc.revision.value + 1)
  {
    NextIsWritten(env, doc, edit, WithPeers(doc.config, edit.peers));
  }

  lemma NextIsWritten(env: Env, doc: Document, edit: Edit, cfg: Config)
    requires doc.state.Versioned? && doc.revision.Some? && WriteNext(env, doc, edit, cfg).Ok?
    ensures doc.revision.value + 1 <= MAX_UINT64
    ensures WriteNext(env, doc, edit, cfg) == Ok(MarshalPreserving(WithEdit(doc.raw, edit), cfg, doc.revision.value + 1))
  {
    NextIsBounded(doc);
  }

  lemma NextIsBounded(doc: Document)
    requires doc.state.Versioned? && doc.revision.Some?
    ensures NextRevision(doc).Ok? <==> doc.revision.value + 1 <= MAX_UINT64
    ensures NextRevision(doc).Ok? ==> NextRevision(doc).value == doc.revision.value + 1
  {
  }

  lemma CommitReadsBack(env: Env, doc: Document, edit: Edit, out: Fields)
    requires env.WellFormed() && doc.state.Versioned? && doc.revision.Some?
    requires TransportOk(env, doc.config) && SSHReadsAs(env, doc.raw, doc.config.ssh)
    requires EditedFrom(env, doc.config, ObjAt(doc.raw, Ssh), edit.ssh)
    requires Commit(env, doc, edit) == Ok(out)
    ensures Parse(env, out) == Ok(Document(WithPeers(doc.config, edit.peers), Versioned, Some(doc.revision.value + 1), out))
  {
    CommitWrites(env, doc, edit, out);
    var next := doc.revision.value + 1;
    EditedReadsBack(env, doc.raw, doc.config, edit, next);
    assert out == MarshalPreserving(WithEdit(doc.raw, edit), WithPeers(doc.config, edit.peers), next);
  }

  /** A successful update committed the edit of the document it read. */
  lemma UpdateCommits(env: Env, raw: Fields, expected: nat, apply: Document -> Result<Edit>, out: Fields)
    requires Update(env, raw, expected, apply) == Ok(out)
    ensures Parse(env, raw).Ok?
    ensures var doc := Parse(env, raw).value;
      && doc.raw == raw && doc.state.Versioned? && doc.revision == Some(expected)
      && apply(doc).Ok? && Commit(env, doc, apply(doc).value) == Ok(out)
  {
    VersionedHasRevision(env, raw);
  }

  lemma UpdateReadsBack(env: Env, raw: Fields, expected: nat, apply: Document -> Result<Edit>)
    requires env.WellFormed() && KeepsSection(env, apply) && Update(env, raw, expected, apply).Ok?
    ensures Parse(env, raw).Ok? && Parse(env, raw).value.revision == Some(expected)
    ensures var doc, out := Parse(env, raw).value, Update(env, raw, expected, apply).value;
      && apply(doc).Ok?
      && Parse(env, out) == Ok(Document(WithPeers(doc.config, apply(doc).value.peers), Versioned, Some(expected + 1), out))
  {
    var out := Update(env, raw, expected, apply).value;
    UpdateCommits(env, raw, expected, apply, out);
    var doc := Parse(env, raw).value;
    var edit := apply(doc).value;
    assert EditedFrom(env, doc.config, ObjAt(doc.raw, Ssh), edit.ssh);
    ParsedReadsAs(env, raw);
    CommitReadsBack(env, doc, edit, out);
  }

  /** Accepted writes stay readable: the new document parses, at the next
      revision, to exactly the configuration that was validated. */
  lemma PeerOpReadsBack(env: Env, raw: Fields, id: Txt, expected: nat, op: PeerOp)
    requires env.WellFormed() && RunPeerOp(env, raw, id, expected, op).Ok?
    ensures Parse(env, raw).Ok? && Parse(env, raw).value.revision == Some(expected)
    ensures var doc, out := Parse(env, raw).value, RunPeerOp(env, raw, id, expected, op).value;
      && Editor(env, id, op)(doc).Ok?
      && Parse(env, out) == Ok(Document(WithPeers(doc.config, Editor(env, id, op)(doc).value.peers), Versioned, Some(expected + 1), out))
  {
    EditorKeepsSection(env, id, op);
    UpdateReadsBack(env, raw, expected, Editor(env, id, op));
  }

  // ---- the effect on the peer itself and on everything else ----

  /** The raw peer after a successful operation. */
  function PeerAfter(env: Env, before: Option<Fields>, id: Txt, op: PeerOp): Option<Fields> {
    match op
    case Upsert(f) => Some(Upserted(env, if before.Some? then before.value else map[Id := Str(id)], f))
    case _ =>
      if before.None? then None else
      var peer := before.value;
      match op
      case PatchProof(accept, connect) => Some(peer[Proof := Obj(PatchedProof(ObjAt(peer, Proof), accept, connect))])
      case Transition(m) => if Moved(peer, m).Ok? then Some(Moved(peer, m).value) else None
      case Disable(_, _) => Some(peer[Enabled := Bool(false)])
      case _ => None
  }

  /** Setting flags and locator fields leaves every other field alone. */
  lemma FlagsKeep(peer: Fields, f: UpsertFields, k: Key)
    requires k !in {Enabled, Accept, Connect, Persistent, OnDemand}
    ensures k in WithFlags(peer, f) <==> k in peer
    ensures k in peer ==> WithFlags(peer, f)[k] == peer[k]
  {
  }

  lemma LocatorKeeps(env: Env, peer: Fields, f: UpsertFields, k: Key)
    requires k !in {SshUser, SshPort, InstallPath, GatewayPath, SshHost}
    ensures k in WithLocator(env, peer, f) <==> k in peer
    ensures k in peer ==> WithLocator(env, peer, f)[k] == peer[k]
  {
  }

  lemma UpsertedKeepsId(env: Env, peer: Fields, f: UpsertFields)
    ensures StrAt(Upserted(env, peer, f), Id) == StrAt(peer, Id)
  {
    var staged := SetStr(peer, MigrationState, f.state);
    FlagsKeep(staged, f, Id);
    LocatorKeeps(env, WithFlags(staged, f), f, Id);
  }

  lemma MovedKeepsId(peer: Fields, m: Move)
    requires Moved(peer, m).Ok?
    ensures StrAt(Moved(peer, m).value, Id) == StrAt(peer, Id)
  {
  }

  ghost predicate UniqueIds(peers: seq<Fields>) {
    forall i, j :: 0 <= i < j < |peers| ==> StrAt(peers[i], Id) != StrAt(peers[j], Id)
  }

  lemma FoundUnique(env: Env, peers: seq<Fields>, id: Txt, i: nat)
    requires UniqueIds(peers) && i < |peers| && StrAt(peers[i], Id) == id
    ensures PeerIn(peers[..i], id).None? && PeerIn(peers[..i] + peers[i + 1..], id).None?
  {
    PeerInNone(peers[..i], id);
    PeerInNone(peers[..i] + peers[i + 1..], id);
  }

  /** Replacing the found peer. */
  lemma ReplacedEffect(env: Env, peers: seq<Fields>, id: Txt, i: nat, peer: Fields)
    requires UniqueIds(peers) && Find(env, peers, id) == Ok(Some(i)) && StrAt(peer, Id) == id
    ensures PeerIn(peers, id) == Some(peers[i])
    ensures PeerIn(peers[i := peer], id) == Some(peer)
    ensures Others(peers[i := peer], id) == Others(peers, id)
  {
    assert peers[0..] == peers;
    FindIsPeerIn(env, peers, id, 0);
    FoundUnique(env, peers, id, i);
    PeerInReplaced(peers, i, peer, id);
    OthersReplaced(peers, i, peer, id);
  }

  lemma RemovedEffect(env: Env, peers: seq<Fields>, id: Txt, i: nat)
    requires UniqueIds(peers) && Find(env, peers, id) == Ok(Some(i))
    ensures PeerIn(peers, id) == Some(peers[i])
    ensures PeerIn(peers[..i] + peers[i + 1..], id) == None
    ensures Others(peers[..i] + peers[i + 1..], id) == Others(peers, id)
  {
    assert peers[0..] == peers;
    FindIsPeerIn(env, peers, id, 0);
    FoundUnique(env, peers, id, i);
    OthersReplaced(peers, i, peers[i], id);
  }

  lemma AddedEffect(env: Env, peers: seq<Fields>, id: Txt, peer: Fields)
    requires Find(env, peers, id) == Ok(None) && StrAt(peer, Id) == id
    ensures PeerIn(peers, id) == None
    ensures PeerIn(peers + [peer], id) == Some(peer)
    ensures Others(peers + [peer], id) == Others(peers, id)
  {
    assert peers[0..] == peers;
    FindIsPeerIn(env, peers, id, 0);
    PeerInAdded(peers, peer, id);
    OthersAdded(peers, peer, id);
  }

  /** The edited list: the peer as the operation leaves it, every other peer untouched. */
  ghost predicate Effect(env: Env, peers: seq<Fields>, edited: seq<Fields>, id: Txt, op: PeerOp) {
    PeerIn(edited, id) == PeerAfter(env, PeerIn(peers, id), id, op) && Others(edited, id) == Others(peers, id)
  }

  lemma PlacedEffect(env: Env, peers: seq<Fields>, id: Txt, found: Option<nat>, peer: Fields)
    requires UniqueIds(peers) && Find(env, peers, id) == Ok(found) && StrAt(peer, Id) == id
    ensures var edited := if found.Some? then peers[found.value := peer] else peers + [peer];
      PeerIn(edited, id) == Some(peer) && Others(edited, id) == Others(peers, id)
    ensures PeerIn(peers, id) == if found.Some? then Some(peers[found.value]) else None
  {
    if found.Some? {
      ReplacedEffect(env, peers, id, found.value, peer);
    } else {
      AddedEffect(env, peers, id, peer);
    }
  }

  lemma UpsertedEffect(env: Env, peers: seq<Fields>, edited: seq<Fields>, id: Txt, found: Option<nat>, f: UpsertFields)
    requires UniqueIds(peers) && Find(env, peers, id) == Ok(found)
    requires edited == if found.Some? then peers[found.value := Upserted(env, peers[found.value], f)]
                       else peers + [Upserted(env, map[Id := Str(id)], f)]
    ensures Effect(env, peers, edited, id, Upsert(f))
  {
    var peer := if found.Some? then peers[found.value] else map[Id := Str(id)];
    UpsertedKeepsId(env, peer, f);
    PlacedEffect(env, peers, id, found, Upserted(env, peer, f));
  }

  lemma UpsertEffect(env: Env, cfg: Config, ssh: Fields, peers: seq<Fields>, id: Txt, f: UpsertFields)
    requires UniqueIds(peers) && ApplyUpsert(env, cfg, ssh, peers, id, f).Ok?
    ensures Effect(env, peers, ApplyUpsert(env, cfg, ssh, peers, id, f).value.peers, id, Upsert(f))
  {
    UpsertedEffect(env, peers, ApplyUpsert(env, cfg, ssh, peers, id, f).value.peers, id, Find(env, peers, id).value, f);
  }

  lemma PatchEffect(env: Env, ssh: Fields, peers: seq<Fields>, id: Txt, accept: Option<ProofPatch>, connect: Option<ProofPatch>)
    requires UniqueIds(peers) && ApplyProofPatch(env, ssh, peers, id, accept, connect).Ok?
    ensures Effect(env, peers, ApplyProofPatch(env, ssh, peers, id, accept, connect).value.peers, id, PatchProof(accept, connect))
  {
    var i := Find(env, peers, id).value.value;
    ReplacedEffect(env, peers, id, i, peers[i][Proof := Obj(PatchedProof(ObjAt(peers[i], Proof), accept, connect))]);
  }

  lemma TransitionEffect(env: Env, ssh: Fields, peers: seq<Fields>, id: Txt, m: Move)
    requires UniqueIds(peers) && ApplyTransition(env, ssh, peers, id, m).Ok?
    ensures Effect(env, peers, ApplyTransition(env, ssh, peers, id, m).value.peers, id, Transition(m))
  {
    var i := Find(env, peers, id).value.value;
    MovedKeepsId(peers[i], m);
    ReplacedEffect(env, peers, id, i, Moved(peers[i], m).value);
  }

  lemma DisabledEffect(env: Env, peers: seq<Fields>, edited: seq<Fields>, id: Txt, i: nat, reason: Txt, at: Txt)
    requires UniqueIds(peers) && Find(env, peers, id) == Ok(Some(i))
    requires edited == peers[i := peers[i][Enabled := Bool(false)]]
    ensures Effect(env, peers, edited, id, Disable(reason, at))
  {
    ReplacedEffect(env, peers, id, i, peers[i][Enabled := Bool(false)]);
  }

  lemma DisableEffect(env: Env, ssh: Fields, peers: seq<Fields>, id: Txt, reason: Txt, at: Txt)
    requires UniqueIds(peers) && ApplyDisable(env, ssh, peers, id, reason, at).Ok?
    ensures Effect(env, peers, ApplyDisable(env, ssh, peers, id, reason, at).value.peers, id, Disable(reason, at))
  {
    DisabledEffect(env, peers, ApplyDisable(env, ssh, peers, id, reason, at).value.peers, id, Find(env, peers, id).value.value, reason, at);
  }

  lemma DeleteEffect(env: Env, ssh: Fields, peers: seq<Fields>, id: Txt, reason: Txt, logID: Txt, at: Txt)
    requires UniqueIds(peers) && ApplyDelete(env, ssh, peers, id, reason, logID, at).Ok?
    ensures Effect(env, peers, ApplyDelete(env, ssh, peers, id, reason, logID, at).value.peers, id, Delete(reason, logID, at))
  {
    RemovedEffect(env, peers, id, Find(env, peers, id).value.value);
  }

  lemma ApplyOpEffect(env: Env, cfg: Config, ssh: Fields, peers: seq<Fields>, id: Txt, op: PeerOp)
    requires UniqueIds(peers) && ApplyOp(env, cfg, ssh, peers, id, op).Ok?
    ensures Effect(env, peers, ApplyOp(env, cfg, ssh, peers, id, op).value.peers, id, op)
  {
    match op
    case Upsert(f) => UpsertEffect(env, cfg, ssh, peers, id, f);
    case PatchProof(accept, connect) => PatchEffect(env, ssh, peers, id, accept, connect);
    case Transition(m) => TransitionEffect(env, ssh, peers, id, m);
    case Disable(why, at) => DisableEffect(env, ssh, peers, id, why, at);
    case Delete(reason, logID, at) => DeleteEffect(env, ssh, peers, id, reason, logID, at);
  }

  // ---- the effect on the document ----

  function PeersOf(raw: Fields): seq<Fields> {
    PeersAt(ObjAt(raw, Ssh))
  }

  function PeerAt(raw: Fields, id: Txt): Option<Fields> {
    PeerIn(PeersOf(raw), id)
  }

  /** A parsed document has valid and distinct peer ids, and its raw peers decode
      to the typed ones. */
  lemma ParsedPeers(env: Env, raw: Fields)
    requires Parse(env, raw).Ok? && !Parse(env, raw).value.state.PreV2?
    ensures UniqueIds(PeersOf(raw)) && PeersTyped(PeersOf(raw))
    ensures forall i :: 0 <= i < |PeersOf(raw)| ==> env.hostIDOk(StrAt(PeersOf(raw)[i], Id))
    ensures var ssh := Parse(env, raw).value.config.ssh;
      if ssh.Some? then ssh.value.peers == PeerViews(PeersOf(raw)) else PeersOf(raw) == []
  {
    ParsedReadsAs(env, raw);
    var cfg := Parse(env, raw).value.config;
    var peers := PeersOf(raw);
    if cfg.ssh.Some? {
      var views := PeerViews(peers);
      assert cfg.ssh.value.peers == views;
      ViewsUnique(env, cfg.hostname, peers, cfg.transport.TransportSSH?);
    }
  }

  lemma ViewsUnique(env: Env, hostname: Txt, peers: seq<Fields>, active: bool)
    requires PeersOk(env, hostname, PeerViews(peers), active)
    ensures UniqueIds(peers)
    ensures forall i :: 0 <= i < |peers| ==> env.hostIDOk(StrAt(peers[i], Id))
  {
    var views := PeerViews(peers);
    forall i, j | 0 <= i < j < |peers|
      ensures StrAt(peers[i], Id) != StrAt(peers[j], Id)
    {
      assert Compatible(env, active, views[i], views[j]);
    }
    forall i | 0 <= i < |peers|
      ensures env.hostIDOk(StrAt(peers[i], Id))
    {
      assert PeerOk(env, hostname, views[i], active);
    }
  }

  /** Top-level fields other than scalars and the ssh section stay. */
  ghost predicate TopFramed(before: Fields, after: Fields) {
    forall k :: k !in SCALARS && k != Ssh ==> (k in after <==> k in before) && (k in before ==> after[k] == before[k])
  }

  lemma MarshalKeeps(env: Env, raw: Fields, edit: Edit, cfg: Config, next: nat)
    requires cfg.ssh.Some?
    ensures var out := MarshalPreserving(WithEdit(raw, edit), cfg, next);
      && ObjAt(out, Ssh) == edit.ssh[Peers := PeersJson(edit.peers)]
      && PeersOf(out) == edit.peers
      && TopFramed(raw, out)
  {
    PeersRoundTrip(edit.ssh, edit.peers);
    var out := MarshalPreserving(WithEdit(raw, edit), cfg, next);
    assert out[Ssh] == Obj(edit.ssh[Peers := PeersJson(edit.peers)]);
  }

  lemma CommitSection(env: Env, doc: Document, edit: Edit, out: Fields)
    requires doc.state.Versioned? && doc.revision.Some? && Commit(env, doc, edit) == Ok(out)
    ensures ObjAt(out, Ssh) == edit.ssh[Peers := PeersJson(edit.peers)]
  {
    CommitWrites(env, doc, edit, out);
    MarshalKeeps(env, doc.raw, edit, WithPeers(doc.config, edit.peers), doc.revision.value + 1);
  }

  ghost predicate LogsGrow(before: Fields, after: Fields) {
    ItemsAt(before, AuditLog) <= ItemsAt(after, AuditLog) && ItemsAt(before, Remediation) <= ItemsAt(after, Remediation)
  }

  lemma DeleteGrowsLogs(env: Env, ssh: Fields, peers: seq<Fields>, id: Txt, reason: Txt, logID: Txt, at: Txt)
    requires ApplyDelete(env, ssh, peers, id, reason, logID, at).Ok?
    ensures LogsGrow(ssh, ApplyDelete(env, ssh, peers, id, reason, logID, at).value.ssh)
  {
  }

  lemma DisableGrowsLogs(env: Env, ssh: Fields, peers: seq<Fields>, id: Txt, reason: Txt, at: Txt)
    requires ApplyDisable(env, ssh, peers, id, reason, at).Ok?
    ensures LogsGrow(ssh, ApplyDisable(env, ssh, peers, id, reason, at).value.ssh)
  {
  }

  lemma ApplyOpGrowsLogs(env: Env, cfg: Config, ssh: Fields, peers: seq<Fields>, id: Txt, op: PeerOp)
    requires ApplyOp(env, cfg, ssh, peers, id, op).Ok?
    ensures LogsGrow(ssh, ApplyOp(env, cfg, ssh, peers, id, op).value.ssh)
  {
    match op
    case Upsert(f) => UpsertEditsFrom(env, cfg, ssh, peers, id, f);
    case PatchProof(accept, connect) => PatchEditsFrom(env, ssh, peers, id, accept, connect);
    case Transition(m) => TransitionEditsFrom(env, ssh, peers, id, m);
    case Disable(why, at) => DisableGrowsLogs(env, ssh, peers, id, why, at);
    case Delete(reason, logID, at) => DeleteGrowsLogs(env, ssh, peers, id, reason, logID, at);
  }

  /** Fields of the ssh section that a peer operation may write. */
  predicate MayWrite(k: Key) {
    k.Peers? || k.AuditLog? || k.Remediation? || k.SyncKey? || k.KnownHosts?
  }

  ghost predicate SectionFramed(before: Fields, after: Fields) {
    && LogsGrow(before, after)
    && forall k :: !MayWrite(k) ==> (k in after <==> k in before) && (k in before ==> after[k] == before[k])
  }

  lemma EditedSectionFramed(env: Env, cfg: Config, ssh: Fields, edit: Edit)
    requires EditedFrom(env, cfg, ssh, edit.ssh) && LogsGrow(ssh, edit.ssh)
    ensures SectionFramed(ssh, edit.ssh[Peers := PeersJson(edit.peers)])
  {
  }

  /** Everything that a peer operation leaves alone. */
  ghost predicate Framed(before: Fields, after: Fields, id: Txt) {
    && Others(PeersOf(after), id) == Others(PeersOf(before), id)
    && SectionFramed(ObjAt(before, Ssh), ObjAt(after, Ssh))
    && TopFramed(before, after)
  }

  /** What the proofs need to know of an edit. */
  ghost predicate GoodEdit(env: Env, doc: Document, edit: Edit, id: Txt, op: PeerOp) {
    && EditedFrom(env, doc.config, ObjAt(doc.raw, Ssh), edit.ssh)
    && LogsGrow(ObjAt(doc.raw, Ssh), edit.ssh)
    && Effect(env, PeersOf(doc.raw), edit.peers, id, op)
  }

  lemma EditorIsGood(env: Env, doc: Document, id: Txt, op: PeerOp)
    requires Editor(env, id, op)(doc).Ok? && UniqueIds(PeersOf(doc.raw))
    ensures GoodEdit(env, doc, Editor(env, id, op)(doc).value, id, op)
  {
    var ssh := ObjAt(doc.raw, Ssh);
    ApplyOpEditsFrom(env, doc.config, ssh, PeersOf(doc.raw), id, op);
    ApplyOpGrowsLogs(env, doc.config, ssh, PeersOf(doc.raw), id, op);
    ApplyOpEffect(env, doc.config, ssh, PeersOf(doc.raw), id, op);
  }

  lemma CommitFramed(env: Env, doc: Document, edit: Edit, out: Fields, id: Txt, op: PeerOp)
    requires doc.state.Versioned? && doc.revision.Some? && Commit(env, doc, edit) == Ok(out)
    requires GoodEdit(env, doc, edit, id, op)
    ensures PeerAt(out, id) == PeerAfter(env, PeerAt(doc.raw, id), id, op) && Framed(doc.raw, out, id)
  {
    CommitWrites(env, doc, edit, out);
    MarshalKeeps(env, doc.raw, edit, WithPeers(doc.config, edit.peers), doc.revision.value + 1);
    EditedSectionFramed(env, doc.config, ObjAt(doc.raw, Ssh), edit);
  }

  lemma UpdateFramed(env: Env, raw: Fields, expected: nat, apply: Document -> Result<Edit>, id: Txt, op: PeerOp, out: Fields)
    requires Update(env, raw, expected, apply) == Ok(out)
    requires Parse(env, raw).Ok? && apply(Parse(env, raw).value).Ok? ==> GoodEdit(env, Parse(env, raw).value, apply(Parse(env, raw).value).value, id, op)
    ensures PeerAt(out, id) == PeerAfter(env, PeerAt(raw, id), id, op) && Framed(raw, out, id)
  {
    UpdateCommits(env, raw, expected, apply, out);
    var doc := Parse(env, raw).value;
    CommitFramed(env, doc, apply(doc).value, out, id, op);
  }

  /** A peer operation changes its own peer as specified, only adds to the logs,
      and leaves unknown fields and every other peer as they were. */
  lemma PeerOpFrame(env: Env, raw: Fields, id: Txt, expected: nat, op: PeerOp)
    requires env.WellFormed() && RunPeerOp(env, raw, id, expected, op).Ok?
    ensures var out := RunPeerOp(env, raw, id, expected, op).value;
      PeerAt(out, id) == PeerAfter(env, PeerAt(raw, id), id, op) && Framed(raw, out, id)
  {
    PeerOpReadsBack(env, raw, id, expected, op);
    var doc := Parse(env, raw).value;
    VersionedHasRevision(env, raw);
    ParsedPeers(env, raw);
    EditorIsGood(env, doc, id, op);
    UpdateFramed(env, raw, expected, Editor(env, id, op), id, op, RunPeerOp(env, raw, id, expected, op).value);
  }
}
