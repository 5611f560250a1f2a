/** What a typed update of the configuration keeps of the raw ssh section, and
    exactly when it loses logs, tombstones and unknown fields
    (internal/config/v2.go). */
module Rewrites {
  import opened Wrappers
  import opened Jsons
  import opened Configs
  import opened Encodings
  import opened Documents

  // ---- fields that the typed configuration has no room for ----

  /** The fields with other than typed keys are the same afterwards. */
  ghost predicate UntypedKept(before: Fields, after: Fields, typed: Key -> bool) {
    forall k :: k in before && !typed(k) ==> k in after && after[k] == before[k]
  }

  ghost predicate OnlyTyped(o: Fields, typed: Key -> bool) {
    forall k :: k in o ==> typed(k)
  }

  /** The migration log and every unknown field of a peer and of its proof. */
  ghost predicate PeerExtrasKept(before: Fields, after: Fields) {
    && UntypedKept(before, after, TypedPeerKey)
    && UntypedKept(ObjAt(before, Proof), ObjAt(after, Proof), TypedProofKey)
  }

  ghost predicate PlainPeer(o: Fields) {
    OnlyTyped(o, TypedPeerKey) && OnlyTyped(ObjAt(o, Proof), TypedProofKey)
  }

  /** The audit log, the remediation list with its tombstones and every unknown
      field of the section, and the same for every peer that is in both. */
  ghost predicate ExtrasKept(before: Fields, after: Fields) {
    && UntypedKept(before, after, TypedSSHKey)
    && forall i, j :: 0 <= i < |PeersAt(before)| && 0 <= j < |PeersAt(after)|
        && StrAt(PeersAt(before)[i], Id) == StrAt(PeersAt(after)[j], Id)
        ==> PeerExtrasKept(PeersAt(before)[i], PeersAt(after)[j])
  }

  /** Is a peer with this id in the configuration? */
  predicate Stays(cfg: Config, id: Txt) {
    cfg.ssh.Some? && exists j :: 0 <= j < |cfg.ssh.value.peers| && cfg.ssh.value.peers[j].id == id
  }

  /** The section has nothing to lose: no log, no tombstone and no unknown field,
      neither in itself nor in a peer that stays. */
  ghost predicate NothingToLose(ssh: Fields, cfg: Config) {
    && OnlyTyped(ssh, TypedSSHKey)
    && forall i :: 0 <= i < |PeersAt(ssh)| && Stays(cfg, StrAt(PeersAt(ssh)[i], Id)) ==> PlainPeer(PeersAt(ssh)[i])
  }

  // ---- a rewritten section ----

  lemma TypedKeepsOnlyTyped(before: Fields, after: Fields, typed: Key -> bool)
    requires OnlyTyped(after, typed)
    ensures UntypedKept(before, after, typed) <==> OnlyTyped(before, typed)
  {
  }

  lemma EncodedPeerIsPlain(p: SSHPeer)
    ensures PlainPeer(EncodePeer(p)) && StrAt(EncodePeer(p), Id) == p.id
  {
    var o := EncodePeer(p);
    PeerReadsBack(p);
    assert PeerView(o).id == StrAt(o, Id);
    assert OnlyTyped(o, TypedPeerKey) by {
      forall k {
        PeerKeysTyped(p, k);
      }
    }
    assert OnlyTyped(EncodeProof(p.proof), TypedProofKey) by {
      forall k {
        ProofKeysTyped(p.proof, k);
      }
    }
  }

  lemma PlainKeepsPlain(before: Fields, after: Fields)
    requires PlainPeer(after)
    ensures PeerExtrasKept(before, after) <==> PlainPeer(before)
  {
    TypedKeepsOnlyTyped(before, after, TypedPeerKey);
    TypedKeepsOnlyTyped(ObjAt(before, Proof), ObjAt(after, Proof), TypedProofKey);
  }

  /** The section of a document that was encoded afresh. */
  function Fresh(cfg: Config): Fields {
    if cfg.ssh.Some? then EncodeSSH(cfg.ssh.value) else map[]
  }

  lemma FreshPeers(cfg: Config)
    ensures OnlyTyped(Fresh(cfg), TypedSSHKey)
    ensures forall j :: 0 <= j < |PeersAt(Fresh(cfg))| ==> PlainPeer(PeersAt(Fresh(cfg))[j])
    ensures |PeersAt(Fresh(cfg))| == if cfg.ssh.Some? then |cfg.ssh.value.peers| else 0
    ensures forall j :: 0 <= j < |PeersAt(Fresh(cfg))| ==> StrAt(PeersAt(Fresh(cfg))[j], Id) == cfg.ssh.value.peers[j].id
  {
    if cfg.ssh.Some? {
      PeersReadBack(cfg.ssh.value);
      forall k {
        SSHKeysTyped(cfg.ssh.value, k);
      }
      forall j | 0 <= j < |cfg.ssh.value.peers| {
        EncodedPeerIsPlain(cfg.ssh.value.peers[j]);
      }
    }
  }

  lemma FreshLacksLogs(cfg: Config)
    ensures forall j :: 0 <= j < |PeersAt(Fresh(cfg))| ==> MigrationLog !in PeersAt(Fresh(cfg))[j]
  {
    FreshPeers(cfg);
  }

  /** A section that is encoded afresh keeps its extras only if it had none. */
  lemma FreshKeepsIff(before: Fields, cfg: Config)
    ensures ExtrasKept(before, Fresh(cfg)) <==> NothingToLose(before, cfg)
  {
    var after := Fresh(cfg);
    FreshPeers(cfg);
    TypedKeepsOnlyTyped(before, after, TypedSSHKey);
    forall i, j | 0 <= i < |PeersAt(before)| && 0 <= j < |PeersAt(after)|
      ensures PeerExtrasKept(PeersAt(before)[i], PeersAt(after)[j]) <==> PlainPeer(PeersAt(before)[i])
    {
      PlainKeepsPlain(PeersAt(before)[i], PeersAt(after)[j]);
    }
    if ExtrasKept(before, after) {
      forall i | 0 <= i < |PeersAt(before)| && Stays(cfg, StrAt(PeersAt(before)[i], Id))
        ensures PlainPeer(PeersAt(before)[i])
      {
        var j :| 0 <= j < |cfg.ssh.value.peers| && cfg.ssh.value.peers[j].id == StrAt(PeersAt(before)[i], Id);
        assert StrAt(PeersAt(after)[j], Id) == StrAt(PeersAt(before)[i], Id);
      }
    }
  }

  // ---- a section that is kept ----

  /** Peer ids of a valid typed section differ, so those of the raw one do. */
  lemma SameSectionKept(ssh: Fields, view: seq<SSHPeer>)
    requires PeerViews(PeersAt(ssh)) == view
    requires forall i, j :: 0 <= i < j < |view| ==> view[i].id != view[j].id
    ensures ExtrasKept(ssh, ssh)
  {
    forall i, j | 0 <= i < |PeersAt(ssh)| && 0 <= j < |PeersAt(ssh)| && StrAt(PeersAt(ssh)[i], Id) == StrAt(PeersAt(ssh)[j], Id)
      ensures PeerExtrasKept(PeersAt(ssh)[i], PeersAt(ssh)[j])
    {
      assert view[i] == PeerView(PeersAt(ssh)[i]) && view[j] == PeerView(PeersAt(ssh)[j]);
      assert view[i].id == view[j].id;
      assert i == j;
    }
  }

  /** The peers of the typed section are the raw ones, decoded. */
  lemma SectionDecodes(env: Env, raw: Fields)
    requires Parse(env, raw).Ok?
    ensures var ssh := Parse(env, raw).value.config.ssh;
      && (ssh.Some? ==> Ssh in raw && raw[Ssh].Obj? && PeerViews(PeersAt(ObjAt(raw, Ssh))) == ssh.value.peers)
      && (ssh.None? ==> ObjAt(raw, Ssh) == map[])
  {
  }

  /** What a typed update writes for the ssh section. */
  lemma SectionAfter(env: Env, doc: Document, cfg: Config, next: nat)
    requires Parse(env, doc.raw) == Ok(doc)
    ensures ObjAt(MarshalTyped(doc, cfg, next), Ssh) == if RewritesSSH(doc, cfg) then Fresh(cfg) else ObjAt(doc.raw, Ssh)
  {
    SectionDecodes(env, doc.raw);
  }

  lemma KeptSection(env: Env, doc: Document, cfg: Config)
    requires Parse(env, doc.raw) == Ok(doc) && TransportOk(env, cfg) && cfg.ssh == doc.config.ssh
    ensures ExtrasKept(ObjAt(doc.raw, Ssh), ObjAt(doc.raw, Ssh))
  {
    SectionDecodes(env, doc.raw);
    if cfg.ssh.Some? {
      forall i, j | 0 <= i < j < |cfg.ssh.value.peers|
        ensures cfg.ssh.value.peers[i].id != cfg.ssh.value.peers[j].id
      {
        assert Compatible(env, cfg.transport.TransportSSH?, cfg.ssh.value.peers[i], cfg.ssh.value.peers[j]);
      }
      SameSectionKept(ObjAt(doc.raw, Ssh), cfg.ssh.value.peers);
    }
  }

  // ---- the exact conditions ----

  /** The steps of an accepted typed update. */
  /** For every accepted typed update: the audit log, the tombstones, the
      migration logs and the unknown ssh fields are kept if and only if the
      section is not rewritten or has nothing to lose. The other top-level fields
      always stay. */
  lemma TypedUpdateKeepsExtrasIff(env: Env, raw: Fields, expected: Expectation, mutate: Config -> Result<Config>)
    requires UpdateScoped(env, raw, expected, mutate).Ok?
    ensures Parse(env, raw).Ok? && mutate(Parse(env, raw).value.config).Ok?
    ensures Normalize(env, mutate(Parse(env, raw).value.config).value).Ok?
    ensures var doc, out := Parse(env, raw).value, UpdateScoped(env, raw, expected, mutate).value;
      var cfg := Normalize(env, mutate(doc.config).value).value;
      && (ExtrasKept(ObjAt(raw, Ssh), ObjAt(out, Ssh)) <==> !RewritesSSH(doc, cfg) || NothingToLose(ObjAt(raw, Ssh), cfg))
      && forall k :: k !in SCALARS && k != Ssh ==> (k in out <==> k in raw) && (k in raw ==> out[k] == raw[k])
  {
    var doc, cfg, next := ScopedSteps(env, raw, expected, mutate);
    SectionAfter(env, doc, cfg, next);
    if RewritesSSH(doc, cfg) {
      FreshKeepsIff(ObjAt(raw, Ssh), cfg);
    } else {
      KeptSection(env, doc, cfg);
    }
  }

  /** The section's peer list is there but empty. */
  predicate EmptyPeerList(raw: Fields) {
    Peers in ObjAt(raw, Ssh) && ObjAt(raw, Ssh)[Peers] == Arr([])
  }

  /** A path that still has to be expanded. */
  predicate Unexpanded(env: Env, doc: Document) {
    doc.config.ssh.Some? && NeedsHome(env, doc.config.ssh.value)
  }

  /** An update that leaves the ssh section alone rewrites it all the same if and
      only if its peer list is an empty array or a path is not expanded yet, which
      is so only before the first version; then, and only then, it loses whatever
      extras there are. */
  lemma UntouchedKeepsExtrasIff(env: Env, raw: Fields, expected: Expectation, mutate: Config -> Result<Config>)
    requires env.WellFormed() && UpdateScoped(env, raw, expected, mutate).Ok?
    requires Parse(env, raw).Ok? && mutate(Parse(env, raw).value.config).Ok?
    requires mutate(Parse(env, raw).value.config).value.ssh == Parse(env, raw).value.config.ssh
    ensures var doc, out := Parse(env, raw).value, UpdateScoped(env, raw, expected, mutate).value;
      && (ExtrasKept(ObjAt(raw, Ssh), ObjAt(out, Ssh)) <==>
            !(EmptyPeerList(raw) || Unexpanded(env, doc)) || NothingToLose(ObjAt(raw, Ssh), doc.config))
      && (!(EmptyPeerList(raw) || Unexpanded(env, doc)) ==> ObjAt(out, Ssh) == ObjAt(raw, Ssh))
      && (Unexpanded(env, doc) ==> doc.state.PreV2?)
  {
    var doc, cfg, next := ScopedSteps(env, raw, expected, mutate);
    UntouchedIsRewrittenIff(env, doc, cfg);
    SectionAfter(env, doc, cfg, next);
    TypedUpdateKeepsExtrasIff(env, raw, expected, mutate);
    assert NothingToLose(ObjAt(raw, Ssh), cfg) <==> NothingToLose(ObjAt(raw, Ssh), doc.config) by {
      forall id {
        StaysNormalized(env, doc.config, cfg, id);
      }
    }
  }

  lemma StaysNormalized(env: Env, before: Config, cfg: Config, id: Txt)
    requires before.ssh.Some? ==> cfg.ssh == Some(NormalizedSSH(env, before.ssh.value))
    requires before.ssh.None? ==> cfg.ssh.None?
    ensures Stays(before, id) == Stays(cfg, id)
  {
  }

  lemma UntouchedIsRewrittenIff(env: Env, doc: Document, cfg: Config)
    requires env.WellFormed() && Parse(env, doc.raw) == Ok(doc) && TransportOk(env, cfg)
    requires doc.config.ssh.Some? ==> cfg.ssh == Some(NormalizedSSH(env, doc.config.ssh.value))
    requires doc.config.ssh.None? ==> cfg.ssh.None?
    ensures RewritesSSH(doc, cfg) <==> EmptyPeerList(doc.raw) || Unexpanded(env, doc)
    ensures Unexpanded(env, doc) ==> doc.state.PreV2?
  {
    SectionDecodes(env, doc.raw);
    if cfg.ssh.Some? {
      NormalizedIsStable(env, cfg.ssh.value);
    }
    if !doc.state.PreV2? && doc.config.ssh.Some? {
      ParsedReadsAs(env, doc.raw);
      NormalizedIsStable(env, doc.config.ssh.value);
    }
  }

  // ---- concrete losses ----

  const TOMBSTONE: Json := Obj(map[Source := Str(TombstoneSource), PeerID := Str(Plain("alpha"))])

  /** A section whose only peer was deleted, with its tombstone and a field of a
      later program version. */
  const TOMBSTONED: Fields := map[Peers := Arr([]), Remediation := Arr([TOMBSTONE]), Other("note") := Num(1)]

  function Unversioned(section: Fields): Fields {
    map[Ssh := Obj(section)]
  }

  function FirstVersion(section: Fields): Fields {
    map[ConfigVersion := Num(2), ConfigRevision := Num(1), Ssh := Obj(section)]
  }

  function BareConfig(ssh: SSHConfig): Config {
    Config(Empty, Empty, Empty, [], Empty, Empty, 0, 0, Some(ssh))
  }

  lemma BareViews(section: Fields)
    requires SSHTyped(section)
    ensures DocTyped(Unversioned(section)) && DocView(Unversioned(section)) == BareConfig(SSHView(section))
    ensures DocTyped(FirstVersion(section)) && DocView(FirstVersion(section)) == BareConfig(SSHView(section))
  {
  }

  /** A first write rewrites the section when it has to. */
  lemma NoOpResult(env: Env, doc: Document, cfg: Config, expected: Expectation, next: nat) returns (out: Fields)
    requires Parse(env, doc.raw) == Ok(doc) && Meets(doc, expected) && NextRevision(doc) == Ok(next)
    requires Normalize(env, doc.config) == Ok(cfg) && TransportOk(env, cfg) && RewritesSSH(doc, cfg)
    ensures UpdateScoped(env, doc.raw, expected, KeepConfig) == Ok(out) && ObjAt(out, Ssh) == Fresh(cfg)
  {
    out := MarshalTyped(doc, cfg, next);
    SectionAfter(env, doc, cfg, next);
  }

  lemma FirstVersionParses(env: Env, section: Fields, ssh: SSHConfig)
    requires SSHTyped(section) && SSHView(section) == ssh && !NeedsHome(env, ssh) && TransportOk(env, BareConfig(ssh))
    ensures Parse(env, FirstVersion(section)) == Ok(Document(BareConfig(ssh), Versioned, Some(1), FirstVersion(section)))
  {
    BareViews(section);
    assert Normalize(env, BareConfig(ssh)) == Ok(BareConfig(ssh));
  }

  lemma TombstonedView()
    ensures SSHTyped(TOMBSTONED) && SSHView(TOMBSTONED) == NO_SSH && EmptyPeerList(FirstVersion(TOMBSTONED))
  {
    assert PeersAt(TOMBSTONED) == [];
  }

  /** An update that changes nothing loses both. */
  lemma NoOpLosesTombstone(env: Env)
    requires env.WellFormed()
    ensures var result := UpdateScoped(env, FirstVersion(TOMBSTONED), Expectation(Versioned, Some(1)), KeepConfig);
      result.Ok? && ObjAt(result.value, Ssh) == map[]
  {
    TombstonedView();
    FirstVersionParses(env, TOMBSTONED, NO_SSH);
    var doc := Document(BareConfig(NO_SSH), Versioned, Some(1), FirstVersion(TOMBSTONED));
    var out := NoOpResult(env, doc, doc.config, Expectation(Versioned, Some(1)), 2);
    NothingEncoded();
  }

  lemma NothingEncoded()
    ensures EncodeSSH(NO_SSH) == map[]
  {
  }

  /** A peer whose log says that it holds a secret. */
  function LoggedPeer(id: Txt): Fields {
    map[Id := Str(id), MigrationLog := Arr([Obj(map[ToState := Str(Txt.Written)])])]
  }

  /** The first write of a document with an unexpanded path loses the migration
      logs of its peers. */
  lemma FirstWriteLosesMigrationLog(env: Env, path: Txt, id: Txt)
    requires env.WellFormed() && env.needsHome(path) && env.homeKnown && env.pathOk(env.expand(path)) && env.hostIDOk(id)
    ensures var section := LoggedSection(path, id);
      var result := UpdateScoped(env, Unversioned(section), Expectation(PreV2, None), KeepConfig);
      && PeersAt(section) == [LoggedPeer(id)]
      && result.Ok? && PeersAt(ObjAt(result.value, Ssh)) == [EncodePeer(PeerView(LoggedPeer(id)))]
      && MigrationLog !in PeersAt(ObjAt(result.value, Ssh))[0]
  {
    var section, view := LoggedSection(path, id), PeerView(LoggedPeer(id));
    LoggedView(path, id);
    BareViews(section);
    var doc := Document(DocView(Unversioned(section)), PreV2, None, Unversioned(section));
    var cfg := BareConfig(SSHConfig(env.expand(path), Empty, 0, 0, 0, [view]));
    assert env.expand(Empty) == Empty;
    assert PeersOk(env, Empty, [view], false);
    assert TransportOk(env, cfg);
    var out := NoOpResult(env, doc, cfg, Expectation(PreV2, None), 1);
    FreshLosesLogs(cfg, view);
  }

  lemma FreshLosesLogs(cfg: Config, view: SSHPeer)
    requires cfg.ssh.Some? && cfg.ssh.value.peers == [view]
    ensures PeersAt(Fresh(cfg)) == [EncodePeer(view)] && MigrationLog !in EncodePeer(view)
  {
    PeersReadBack(cfg.ssh.value);
    PeerKeysTyped(view, MigrationLog);
    assert EncodePeers([view]) == [EncodePeer(view)];
  }

  function LoggedSection(path: Txt, id: Txt): Fields {
    map[SyncKey := Str(path), Peers := PeersJson([LoggedPeer(id)])]
  }

  lemma LoggedView(path: Txt, id: Txt)
    ensures var section, view := LoggedSection(path, id), PeerView(LoggedPeer(id));
      && SSHTyped(section) && SSHView(section) == SSHConfig(path, Empty, 0, 0, 0, [view])
      && PeersAt(section) == [LoggedPeer(id)] && view.id == id && view.sshPort == 0
      && view.installPath == Empty && view.gatewayPath == Empty
  {
    var section, peer := LoggedSection(path, id), LoggedPeer(id);
    PeersRoundTrip(map[SyncKey := Str(path)], [peer]);
    assert map[SyncKey := Str(path)][Peers := PeersJson([peer])] == section;
    LoggedPeerView(id, peer);
    assert PeerViews([peer]) == [PeerView(peer)];
  }

  lemma LoggedPeerView(id: Txt, peer: Fields)
    requires peer == LoggedPeer(id)
    ensures PeerTyped(peer)
    ensures var view := PeerView(peer);
      view.id == id && view.sshPort == 0 && view.installPath == Empty && view.gatewayPath == Empty
  {
  }
}
