/** The two scoped mutators that edit the raw document at its top level: the
    repair of an unsafe listener and the reset of a host that has lost its shared
    key (internal/config/listener_repair.go, internal/config/fleet_reset.go). */
module Maintenance {
  import opened Wrappers
  import opened Jsons
  import opened Configs
  import opened Encodings
  import opened Documents
  import opened PeerEffects
  import opened Rewrites

  // ---- scoped updates that edit the raw document ----

  /** The typed configuration and the raw document as the mutation leaves them. */
  datatype Edited = Edited(config: Config, raw: Fields)

  function UpdateRaw(env: Env, raw: Fields, expected: Expectation, mutate: Document -> Result<Edited>): Result<Fields> {
    var doc :- Parse(env, raw);
    if !Meets(doc, expected) then Err("config_revision_conflict") else
    var edited :- mutate(doc);
    var cfg :- Normalize(env, edited.config);
    if !TransportOk(env, cfg) then Err("invalid_ssh_transport_config") else
    var next :- NextRevision(doc);
    Ok(MarshalTyped(doc.(raw := edited.raw), cfg, next))
  }

  /** A mutation of the typed configuration alone. */
  function TypedOnly(mutate: Config -> Result<Config>): Document -> Result<Edited> {
    (doc: Document) =>
      var cfg :- mutate(doc.config);
      Ok(Edited(cfg, doc.raw))
  }

  /** Both kinds of update are one operation. */
  lemma ScopedIsRaw(env: Env, raw: Fields, expected: Expectation, mutate: Config -> Result<Config>)
    ensures UpdateScoped(env, raw, expected, mutate) == UpdateRaw(env, raw, expected, TypedOnly(mutate))
  {
  }

  /** The mutation leaves the raw ssh section alone, or drops it in both. */
  predicate SectionKeptOrDropped(raw: Fields, edited: Edited) {
    || ((Ssh in edited.raw <==> Ssh in raw) && (Ssh in raw ==> edited.raw[Ssh] == raw[Ssh]))
    || (Ssh !in edited.raw && edited.config.ssh.None?)
  }

  /** The steps of an accepted update. */
  lemma RawSteps(env: Env, raw: Fields, expected: Expectation, mutate: Document -> Result<Edited>, out: Fields)
    returns (doc: Document, edited: Edited, cfg: Config, next: nat)
    requires UpdateRaw(env, raw, expected, mutate) == Ok(out)
    ensures Parse(env, raw) == Ok(doc) && doc.raw == raw && Meets(doc, expected) && doc.revision == expected.revision
    ensures mutate(doc) == Ok(edited) && Normalize(env, edited.config) == Ok(cfg) && TransportOk(env, cfg)
    ensures next == (if expected.revision.Some? then expected.revision.value + 1 else 1) && 1 <= next <= MAX_UINT64
    ensures out == MarshalTyped(doc.(raw := edited.raw), cfg, next)
  {
    VersionedHasRevision(env, raw);
    doc := Parse(env, raw).value;
    edited := mutate(doc).value;
    cfg := Normalize(env, edited.config).value;
    next := NextRevision(doc).value;
  }

  lemma EditedWrites(env: Env, doc: Document, edited: Edited, cfg: Config, next: nat)
    requires env.WellFormed() && Parse(env, doc.raw) == Ok(doc) && TransportOk(env, cfg)
    requires SectionKeptOrDropped(doc.raw, edited) && Normalize(env, edited.config) == Ok(cfg)
    ensures WrittenFrom(env, MarshalTyped(doc.(raw := edited.raw), cfg, next), edited.raw, cfg, next)
  {
    var doc' := doc.(raw := edited.raw);
    if cfg.ssh.Some? {
      NormalizedIsStable(env, cfg.ssh.value);
      SSHReadsBack(cfg.ssh.value);
    }
    if RewritesSSH(doc', cfg) {
      FreshSectionWrites(env, doc', cfg, next);
    } else {
      UnchangedSSHReadsBack(env, doc.raw);
      KeptSectionReads(env, doc, edited, cfg);
    }
  }

  lemma KeptSectionReads(env: Env, doc: Document, edited: Edited, cfg: Config)
    requires SectionKeptOrDropped(doc.raw, edited) && Normalize(env, edited.config) == Ok(cfg)
    requires cfg.ssh == doc.config.ssh && SSHReadsAs(env, doc.raw, cfg.ssh)
    ensures SSHReadsAs(env, edited.raw, cfg.ssh)
  {
  }

  /** It reads back as exactly the configuration asked for, normalised, at the next
      revision. */
  lemma EditReadsBack(env: Env, raw: Fields, expected: Expectation, mutate: Document -> Result<Edited>, out: Fields)
    returns (doc: Document, edited: Edited, cfg: Config, next: nat)
    requires env.WellFormed() && UpdateRaw(env, raw, expected, mutate) == Ok(out)
    requires forall d: Document, e: Edited :: mutate(d) == Ok(e) ==> SectionKeptOrDropped(d.raw, e)
    ensures Parse(env, raw) == Ok(doc) && doc.raw == raw && doc.revision == expected.revision
    ensures mutate(doc) == Ok(edited) && Normalize(env, edited.config) == Ok(cfg)
    ensures next == if expected.revision.Some? then expected.revision.value + 1 else 1
    ensures Parse(env, out) == Ok(Document(cfg, Versioned, Some(next), out))
  {
    doc, edited, cfg, next := RawSteps(env, raw, expected, mutate, out);
    EditedWrites(env, doc, edited, cfg, next);
    WrittenReadsBack(env, out, edited.raw, cfg, next);
  }

  // ---- the listener ----

  /** What the listener planner makes of a configuration. */
  datatype ListenerPlan = ListenerPlan(safeMode: bool, configured: Txt, repair: Txt, bind: Txt)

  /** The planner, the default address for a port, and the port of an address. */
  datatype Planner = Planner(plan: Config -> ListenerPlan, defaultListen: int -> Txt, portOf: Txt -> Option<int>, defaultPort: int)

  datatype Repair = Repair(listen: Txt, port: int, previous: Option<Txt>)

  const PREVIOUS_LISTEN: Key := Other("previous_listen")

  predicate PromotionKeeps(k: Key) {
    || k.ConfigVersion? || k.ConfigRevision? || k.Listen? || k.Port? || k == PREVIOUS_LISTEN || k.SharedKey?
    || k.Discovery? || k.StaticPeers? || k.Hostname? || k.MaxHistory?
  }

  /** A document without a revision keeps only the fields that have nothing to do
      with ssh. */
  function Promoted(raw: Fields): Fields {
    map k | k in raw && PromotionKeeps(k) :: raw[k]
  }

  /** The repair: only of an unsafe listener, and only to the planned address. */
  function Repaired(planner: Planner, r: Repair, doc: Document): Result<Edited> {
    var plan := planner.plan(doc.config);
    if !plan.safeMode then Err("listener_repair_not_required")
    else if r.listen != plan.repair || r.listen != planner.defaultListen(r.port) then Err("invalid_listener_repair_request")
    else if r.previous.Some? && r.previous.value != plan.configured then Err("invalid_listener_repair_request")
    else if plan.configured.Empty? then Err("invalid_listener_repair_request")
    else
      var cfg := if doc.state.Versioned? then doc.config else doc.config.(transport := Empty, ssh := None);
      var raw := if doc.state.Versioned? then doc.raw else Promoted(doc.raw);
      Ok(Edited(cfg.(listen := plan.repair, port := r.port), raw[PREVIOUS_LISTEN := Str(plan.configured)]))
  }

  function Repairer(planner: Planner, r: Repair): Document -> Result<Edited> {
    (doc: Document) => Repaired(planner, r, doc)
  }

  function RunRepair(env: Env, raw: Fields, expected: Expectation, planner: Planner, r: Repair): Result<Fields> {
    UpdateRaw(env, raw, expected, Repairer(planner, r))
  }

  lemma RepairKeepsOrDrops(planner: Planner, r: Repair)
    ensures forall d: Document, e: Edited :: Repairer(planner, r)(d) == Ok(e) ==> SectionKeptOrDropped(d.raw, e)
  {
  }

  /** A repair of a versioned document leaves its peers, logs and unknown fields
      alone, unless its peer list is an empty array. */
  lemma RepairKeepsSection(env: Env, raw: Fields, expected: Expectation, planner: Planner, r: Repair, out: Fields)
    requires env.WellFormed() && RunRepair(env, raw, expected, planner, r) == Ok(out) && expected.state.Versioned?
    ensures !EmptyPeerList(raw) ==> ObjAt(out, Ssh) == ObjAt(raw, Ssh)
    ensures EmptyPeerList(raw) ==> PeersOf(out) == []
  {
    var doc, edited, cfg, next := RawSteps(env, raw, expected, Repairer(planner, r), out);
    SectionDecodes(env, raw);
    ParsedReadsAs(env, raw);
    if doc.config.ssh.Some? {
      NormalizedIsStable(env, doc.config.ssh.value);
    }
    assert cfg.ssh == doc.config.ssh;
    assert ObjAt(edited.raw, Ssh) == ObjAt(raw, Ssh);
    EditedSection(doc.(raw := edited.raw), cfg, next);
    if EmptyPeerList(raw) {
      assert PeersAt(ObjAt(raw, Ssh)) == [];
      FreshPeers(cfg);
    }
  }

  /** What is written for the ssh section. */
  lemma EditedSection(doc: Document, cfg: Config, next: nat)
    ensures var out := MarshalTyped(doc, cfg, next);
      ObjAt(out, Ssh) == if RewritesSSH(doc, cfg) then Fresh(cfg) else ObjAt(doc.raw, Ssh)
  {
  }

  /** A repair of a document without a revision drops its ssh section. */
  lemma PromotionDropsSection(env: Env, raw: Fields, expected: Expectation, planner: Planner, r: Repair, out: Fields)
    requires env.WellFormed() && RunRepair(env, raw, expected, planner, r) == Ok(out) && !expected.state.Versioned?
    ensures PeersOf(out) == []
  {
    var doc, edited, cfg, next := RawSteps(env, raw, expected, Repairer(planner, r), out);
    assert Ssh !in edited.raw && cfg.ssh.None?;
    EditedSection(doc.(raw := edited.raw), cfg, next);
  }

  // ---- the fleet reset ----

  /** What a reset takes from its surroundings: key material found on disk, the
      derived host id, the new shared key, the default sync key path if there is a
      key, and whether a new sync key could be staged. */
  datatype Reset = Reset(materialOnDisk: bool, derived: Option<Txt>, newKey: Txt, defaultSyncKey: Option<Txt>, staged: bool)

  /** A field of the ssh section that a reset tolerates. */
  predicate PlainSSHField(k: Key, j: Json) {
    || j.Null? || k.SyncKey? || k.MaxSessions? || k.MaxSessionsPerPeer? || k.LogLimitBytes?
    || (k.Peers? && j.Arr? && j.items == []) || (k.KnownHosts? && j == Str(Empty))
  }

  /** Top-level fields with ssh material of other versions. */
  predicate MaterialKey(k: Key) {
    && k.Other?
    && (|| k.name == "sync_key_path" || k.name == "sync_private_key_path" || k.name == "sync_public_key_path"
        || k.name == "private_key_path" || k.name == "known_hosts_path" || k.name == "authorized_keys_path"
        || k.name == "managed_authorized_keys" || k.name == "authorized_keys_metadata" || k.name == "transport_current_path")
  }

  predicate Unsupported(k: Key, j: Json) {
    && !j.Null?
    && (|| (k.Ssh? && !(j.Obj? && forall f :: f in j.fields ==> PlainSSHField(f, j.fields[f])))
        || MaterialKey(k)
        || (k.Transport? && !(j.Str? && !j.s.TransportSSH?)))
  }

  predicate HasUnsupported(raw: Fields) {
    exists k :: k in raw && Unsupported(k, raw[k])
  }

  function ResetSyncKey(cfg: Config, r: Reset): Option<Txt> {
    if cfg.ssh.Some? && !cfg.ssh.value.syncKey.Empty? then Some(cfg.ssh.value.syncKey) else r.defaultSyncKey
  }

  /** The section gets the sync key path if it has none. */
  function WithSyncKey(cfg: Config, path: Txt): Config {
    var ssh := if cfg.ssh.Some? then cfg.ssh.value else NO_SSH;
    cfg.(ssh := Some(if ssh.syncKey.Empty? then ssh.(syncKey := path) else ssh))
  }

  /** The reset: only of a host with a safe listener, no valid shared key and no
      peers or other ssh material. */
  function ResetEdit(env: Env, planner: Planner, r: Reset, doc: Document): Result<Edited> {
    var cfg := doc.config;
    if planner.plan(cfg).safeMode then Err("fleet_reset_unsafe_listener")
    else if env.sharedKeyOk(cfg.sharedKey) then Err("fleet_reset_shared_key_still_valid")
    else if HasUnsupported(doc.raw) || r.materialOnDisk then Err("fleet_reset_ssh_material_present")
    else if cfg.hostname.Empty? && r.derived.None? then Err("derive_host_id")
    else
      var hostID := if cfg.hostname.Empty? then r.derived.value else cfg.hostname;
      var path := ResetSyncKey(cfg, r);
      if !env.hostIDOk(hostID) then Err("invalid_host_id")
      else if !env.sharedKeyOk(r.newKey) then Err("invalid_generated_shared_key")
      else if path.Some? && (!env.pathOk(path.value) || !r.staged) then Err("invalid_sync_key")
      else
        var keyed := if path.Some? then WithSyncKey(cfg, path.value) else cfg;
        var bind := planner.plan(keyed).bind;
        var port := planner.portOf(bind);
        Ok(Edited(keyed.(sharedKey := r.newKey, hostname := hostID, discovery := DiscoveryStatic, staticPeers := [],
                         listen := if port.Some? then bind else planner.defaultListen(planner.defaultPort),
                         port := if port.Some? then port.value else planner.defaultPort),
                  doc.raw - {StaticPeers, PREVIOUS_LISTEN}))
  }

  function Resetter(env: Env, planner: Planner, r: Reset): Document -> Result<Edited> {
    (doc: Document) => ResetEdit(env, planner, r, doc)
  }

  function RunReset(env: Env, raw: Fields, expected: Expectation, planner: Planner, r: Reset): Result<Fields> {
    UpdateRaw(env, raw, expected, Resetter(env, planner, r))
  }

  lemma ResetKeeps(env: Env, planner: Planner, r: Reset)
    ensures forall d: Document, e: Edited :: Resetter(env, planner, r)(d) == Ok(e) ==> SectionKeptOrDropped(d.raw, e)
  {
  }

  /** A reset goes through only where there is nothing to lose: no peer, no log, no
      tombstone and no unknown ssh field that is not null; and it adds none. */
  lemma ResetOnlyWithoutPeers(env: Env, raw: Fields, expected: Expectation, planner: Planner, r: Reset, out: Fields)
    requires env.WellFormed() && RunReset(env, raw, expected, planner, r) == Ok(out)
    ensures PeersOf(raw) == [] && PeersOf(out) == []
    ensures forall k :: k in ObjAt(raw, Ssh) && !TypedSSHKey(k) ==> ObjAt(raw, Ssh)[k].Null?
  {
    ResetKeeps(env, planner, r);
    var doc, edited, cfg, next := EditReadsBack(env, raw, expected, Resetter(env, planner, r), out);
    NothingUnsupported(raw);
    SectionDecodes(env, raw);
    SectionDecodes(env, out);
    assert PeersOf(raw) == [];
  }

  lemma NothingUnsupported(raw: Fields)
    requires !HasUnsupported(raw)
    ensures PeersOf(raw) == []
    ensures forall k :: k in ObjAt(raw, Ssh) && !TypedSSHKey(k) ==> ObjAt(raw, Ssh)[k].Null?
  {
    if Ssh in raw && raw[Ssh].Obj? {
      assert !Unsupported(Ssh, raw[Ssh]);
      assert Peers in raw[Ssh].fields ==> PlainSSHField(Peers, raw[Ssh].fields[Peers]);
    }
  }
}
