/** The configuration document as a compare-and-swap store: local material
    updates, and what any sequence of the locked mutators does to revisions
    (internal/config/ssh_local_material.go, internal/config/v2.go). */
module Stores {
  import opened Wrappers
  import opened Jsons
  import opened Configs
  import opened Documents
  import opened PeerOps
  import opened PeerEffects
  import opened HostRemovals
  import opened Maintenance

  // ---- local material ----

  datatype Material = Material(transport: Option<Txt>, sharedKey: Option<Txt>, syncKey: Option<Txt>, knownHosts: Option<Txt>)

  predicate MaterialOk(env: Env, m: Material) {
    && (m.transport.Some? || m.sharedKey.Some? || m.syncKey.Some? || m.knownHosts.Some?)
    && (m.transport.Some? ==> m.transport.value.TransportSSH?)
    && (m.sharedKey.Some? ==> env.sharedKeyOk(m.sharedKey.value))
    && (m.syncKey.Some? ==> env.pathOk(m.syncKey.value))
    && (m.knownHosts.Some? ==> env.pathOk(m.knownHosts.value))
  }

  function Or(o: Option<Txt>, t: Txt): Txt {
    if o.Some? then o.value else t
  }

  /** The typed configuration; choosing the ssh transport also makes discovery
      static and drops the static peers. */
  function MaterialConfig(cfg: Config, m: Material): Config {
    var ssh := if cfg.ssh.Some? then cfg.ssh.value else NO_SSH;
    cfg.(transport := Or(m.transport, cfg.transport),
         discovery := if m.transport.Some? then DiscoveryStatic else cfg.discovery,
         staticPeers := if m.transport.Some? then [] else cfg.staticPeers,
         sharedKey := Or(m.sharedKey, cfg.sharedKey),
         ssh := Some(ssh.(syncKey := Or(m.syncKey, ssh.syncKey), knownHosts := Or(m.knownHosts, ssh.knownHosts))))
  }

  function MaterialSection(ssh: Fields, m: Material): Fields {
    SetStr(SetStr(ssh, SyncKey, m.syncKey), KnownHosts, m.knownHosts)
  }

  /** The same edits on the raw document. */
  function MaterialRaw(raw: Fields, m: Material): Fields {
    var moved := if m.transport.Some? then raw[Transport := Str(m.transport.value)][Discovery := Str(DiscoveryStatic)] - {StaticPeers} else raw;
    SetStr(moved, SharedKey, m.sharedKey)[Ssh := Obj(MaterialSection(ObjAt(raw, Ssh), m))]
  }

  function RunMaterial(env: Env, raw: Fields, expected: nat, m: Material): Result<Fields> {
    if !MaterialOk(env, m) then Err("invalid_ssh_local_material") else
    var doc :- Parse(env, raw);
    if !Meets(doc, Expectation(Versioned, Some(expected))) then Err("config_revision_conflict") else
    var cfg :- Normalize(env, MaterialConfig(doc.config, m));
    if !TransportOk(env, cfg) then Err("invalid_ssh_transport_config") else
    var next :- NextRevision(doc);
    Ok(MarshalPreserving(MaterialRaw(raw, m), cfg, next))
  }

  lemma MaterialIsStable(env: Env, cfg: Config, m: Material)
    requires env.WellFormed() && MaterialOk(env, m) && TransportOk(env, cfg)
    ensures Normalize(env, MaterialConfig(cfg, m)) == Ok(MaterialConfig(cfg, m))
    ensures !NeedsHome(env, MaterialConfig(cfg, m).ssh.value)
  {
    if cfg.ssh.Some? {
      NormalizedIsStable(env, cfg.ssh.value);
    }
  }

  lemma MaterialSectionView(ssh: Fields, m: Material)
    requires SSHTyped(ssh)
    ensures var o := MaterialSection(ssh, m);
      && SSHTyped(o) && PeersAt(o) == PeersAt(ssh)
      && SSHView(o) == SSHView(ssh).(syncKey := Or(m.syncKey, SSHView(ssh).syncKey), knownHosts := Or(m.knownHosts, SSHView(ssh).knownHosts))
      && ItemsAt(o, AuditLog) == ItemsAt(ssh, AuditLog) && ItemsAt(o, Remediation) == ItemsAt(ssh, Remediation)
  {
  }

  /** Expansion works on each path alone. */
  lemma NormalizedPointwise(env: Env, ssh: SSHConfig)
    requires env.WellFormed()
    ensures NormalizedSSH(env, ssh) == ssh.(syncKey := env.expand(ssh.syncKey), knownHosts := env.expand(ssh.knownHosts))
  {
  }

  lemma MaterialReadsAs(env: Env, raw: Fields, cfg: Config, m: Material)
    requires env.WellFormed() && MaterialOk(env, m) && TransportOk(env, cfg)
    requires SSHReadsAs(env, raw, cfg.ssh)
    ensures SSHReadsAs(env, MaterialRaw(raw, m), MaterialConfig(cfg, m).ssh)
    ensures PeersOf(MaterialRaw(raw, m)) == PeersOf(raw)
  {
    var section := ObjAt(raw, Ssh);
    if cfg.ssh.Some? {
      NormalizedIsStable(env, cfg.ssh.value);
    }
    MaterialSectionView(section, m);
    NormalizedPointwise(env, SSHView(section));
    NormalizedPointwise(env, SSHView(MaterialSection(section, m)));
    assert ObjAt(MaterialRaw(raw, m), Ssh) == MaterialSection(section, m);
    if cfg.ssh.None? {
      assert SSHView(section) == NO_SSH;
    }
  }

  lemma MaterialSectionWritten(env: Env, raw: Fields, m: Material, cfg: Config, next: nat)
    requires cfg.ssh.Some?
    ensures var out := MarshalPreserving(MaterialRaw(raw, m), cfg, next);
      ObjAt(out, Ssh) == MaterialSection(ObjAt(raw, Ssh), m)
  {
    assert Ssh in MaterialRaw(raw, m) && MaterialRaw(raw, m)[Ssh] == Obj(MaterialSection(ObjAt(raw, Ssh), m));
  }

  lemma MaterialPeersWritten(raw: Fields, m: Material)
    requires SSHTyped(ObjAt(raw, Ssh))
    ensures PeersAt(MaterialSection(ObjAt(raw, Ssh), m)) == PeersOf(raw)
  {
    MaterialSectionView(ObjAt(raw, Ssh), m);
  }

  lemma MaterialWrites(env: Env, raw: Fields, cfg: Config, m: Material, next: nat)
    requires env.WellFormed() && MaterialOk(env, m) && TransportOk(env, cfg) && SSHReadsAs(env, raw, cfg.ssh)
    requires TransportOk(env, MaterialConfig(cfg, m)) && 1 <= next <= MAX_UINT64
    ensures var out := MarshalPreserving(MaterialRaw(raw, m), MaterialConfig(cfg, m), next);
      Parse(env, out) == Ok(Document(MaterialConfig(cfg, m), Versioned, Some(next), out))
  {
    var edited, checked := MaterialRaw(raw, m), MaterialConfig(cfg, m);
    MaterialReadsAs(env, raw, cfg, m);
    PreservingWrites(env, edited, checked, next);
    WrittenReadsBack(env, MarshalPreserving(edited, checked, next), edited, checked, next);
  }

  /** When a material update succeeds, and with what. */
  lemma MaterialOutcome(env: Env, raw: Fields, doc: Document, expected: nat, m: Material)
    requires env.WellFormed() && MaterialOk(env, m)
    requires Parse(env, raw) == Ok(doc) && Meets(doc, Expectation(Versioned, Some(expected)))
    requires TransportOk(env, doc.config)
    ensures RunMaterial(env, raw, expected, m).Ok? <==> TransportOk(env, MaterialConfig(doc.config, m)) && expected < MAX_UINT64
    ensures RunMaterial(env, raw, expected, m).Ok? ==>
      RunMaterial(env, raw, expected, m).value == MarshalPreserving(MaterialRaw(raw, m), MaterialConfig(doc.config, m), expected + 1)
  {
    var cfg := MaterialConfig(doc.config, m);
    assert Normalize(env, cfg) == Ok(cfg) by { MaterialIsStable(env, doc.config, m); }
    assert NextRevision(doc) == if expected < MAX_UINT64 then Ok(expected + 1) else NextRevision(doc);
  }

  lemma MaterialWritten(env: Env, raw: Fields, cfg: Config, m: Material, next: nat, out: Fields)
    requires env.WellFormed() && MaterialOk(env, m) && TransportOk(env, cfg) && SSHReadsAs(env, raw, cfg.ssh)
    requires TransportOk(env, MaterialConfig(cfg, m)) && 1 <= next <= MAX_UINT64
    requires out == MarshalPreserving(MaterialRaw(raw, m), MaterialConfig(cfg, m), next)
    ensures Parse(env, out) == Ok(Document(MaterialConfig(cfg, m), Versioned, Some(next), out))
    ensures ObjAt(out, Ssh) == MaterialSection(ObjAt(raw, Ssh), m) && PeersOf(out) == PeersOf(raw)
  {
    MaterialWrites(env, raw, cfg, m, next);
    MaterialSectionWritten(env, raw, m, MaterialConfig(cfg, m), next);
    MaterialPeersWritten(raw, m);
  }

  lemma MaterialSteps(env: Env, raw: Fields, expected: nat, m: Material, out: Fields)
    requires env.WellFormed() && RunMaterial(env, raw, expected, m) == Ok(out)
    ensures Parse(env, raw).Ok?
    ensures var doc := Parse(env, raw).value;
      && doc.revision == Some(expected) && 1 <= expected < MAX_UINT64
      && MaterialOk(env, m) && TransportOk(env, doc.config) && SSHReadsAs(env, raw, doc.config.ssh)
      && TransportOk(env, MaterialConfig(doc.config, m))
      && out == MarshalPreserving(MaterialRaw(raw, m), MaterialConfig(doc.config, m), expected + 1)
  {
    var doc := Parse(env, raw).value;
    VersionedHasRevision(env, raw);
    ParsedReadsAs(env, raw);
    MaterialOutcome(env, raw, doc, expected, m);
  }

  lemma MaterialReadsBack(env: Env, raw: Fields, expected: nat, m: Material)
    requires env.WellFormed() && RunMaterial(env, raw, expected, m).Ok?
    ensures Parse(env, raw).Ok? && Parse(env, raw).value.revision == Some(expected)
    ensures var doc, out := Parse(env, raw).value, RunMaterial(env, raw, expected, m).value;
      && Parse(env, out) == Ok(Document(MaterialConfig(doc.config, m), Versioned, Some(expected + 1), out))
      && ObjAt(out, Ssh) == MaterialSection(ObjAt(raw, Ssh), m) && PeersOf(out) == PeersOf(raw)
  {
    var out := RunMaterial(env, raw, expected, m).value;
    MaterialSteps(env, raw, expected, m, out);
    MaterialWritten(env, raw, Parse(env, raw).value.config, m, expected + 1, out);
  }

  // ---- any sequence of mutators ----

  datatype Request =
    | ForPeer(id: Txt, expected: nat, op: PeerOp)
    | ForMaterial(expected: nat, material: Material)
    | ForRemoval(expectation: Expectation, removal: Removal)
    | ForRepair(expectation: Expectation, planner: Planner, repair: Repair)
    | ForReset(expectation: Expectation, planner: Planner, reset: Reset)
    | Scoped(expectation: Expectation, mutate: Config -> Result<Config>)

  function Attempt(env: Env, raw: Fields, r: Request): Result<Fields> {
    match r
    case ForPeer(id, expected, op) => RunPeerOp(env, raw, id, expected, op)
    case ForMaterial(expected, m) => RunMaterial(env, raw, expected, m)
    case ForRemoval(expectation, removal) => RunRemoval(env, raw, expectation, removal)
    case ForRepair(expectation, planner, repair) => RunRepair(env, raw, expectation, planner, repair)
    case ForReset(expectation, planner, reset) => RunReset(env, raw, expectation, planner, reset)
    case Scoped(expectation, mutate) => UpdateScoped(env, raw, expectation, mutate)
  }

  /** The revision that a request expects; a first write expects none. */
  function Expects(r: Request): Option<nat> {
    match r
    case ForPeer(_, expected, _) => Some(expected)
    case ForMaterial(expected, _) => Some(expected)
    case ForRemoval(expectation, _) => expectation.revision
    case ForRepair(expectation, _, _) => expectation.revision
    case ForReset(expectation, _, _) => expectation.revision
    case Scoped(expectation, _) => expectation.revision
  }

  /** From the revision that was expected to the next. */
  ghost predicate Advances(env: Env, before: Fields, after: Fields, expects: Option<nat>) {
    && Parse(env, before).Ok? && RevisionOf(env, before) == expects
    && RevisionOf(env, after) == Some(if expects.Some? then expects.value + 1 else 1)
  }

  lemma ScopedAdvances(env: Env, raw: Fields, expectation: Expectation, mutate: Config -> Result<Config>, out: Fields)
    requires env.WellFormed() && UpdateScoped(env, raw, expectation, mutate) == Ok(out)
    ensures Advances(env, raw, out, expectation.revision)
  {
    ScopedReadsBack(env, raw, expectation, mutate);
    VersionedHasRevision(env, raw);
  }

  lemma PeerOpAdvances(env: Env, raw: Fields, id: Txt, expected: nat, op: PeerOp)
    requires env.WellFormed() && RunPeerOp(env, raw, id, expected, op).Ok?
    ensures Advances(env, raw, RunPeerOp(env, raw, id, expected, op).value, Some(expected))
  {
    PeerOpReadsBack(env, raw, id, expected, op);
  }

  lemma MaterialAdvances(env: Env, raw: Fields, expected: nat, m: Material)
    requires env.WellFormed() && RunMaterial(env, raw, expected, m).Ok?
    ensures Advances(env, raw, RunMaterial(env, raw, expected, m).value, Some(expected))
  {
    MaterialReadsBack(env, raw, expected, m);
  }

  lemma RemovalAdvances(env: Env, raw: Fields, expectation: Expectation, removal: Removal, out: Fields)
    requires env.WellFormed() && RunRemoval(env, raw, expectation, removal) == Ok(out)
    ensures Advances(env, raw, out, expectation.revision)
  {
    RemovalReadsBack(env, raw, expectation, removal, out);
  }

  lemma RepairAdvances(env: Env, raw: Fields, expectation: Expectation, planner: Planner, repair: Repair, out: Fields)
    requires env.WellFormed() && RunRepair(env, raw, expectation, planner, repair) == Ok(out)
    ensures Advances(env, raw, out, expectation.revision)
  {
    RepairKeepsOrDrops(planner, repair);
    var doc, edited, cfg, next := EditReadsBack(env, raw, expectation, Repairer(planner, repair), out);
  }

  lemma ResetAdvances(env: Env, raw: Fields, expectation: Expectation, planner: Planner, reset: Reset, out: Fields)
    requires env.WellFormed() && RunReset(env, raw, expectation, planner, reset) == Ok(out)
    ensures Advances(env, raw, out, expectation.revision)
  {
    ResetKeeps(env, planner, reset);
    var doc, edited, cfg, next := EditReadsBack(env, raw, expectation, Resetter(env, planner, reset), out);
  }

  lemma RequestAdvances(env: Env, raw: Fields, r: Request, out: Fields)
    requires env.WellFormed() && Attempt(env, raw, r) == Ok(out)
    ensures Advances(env, raw, out, Expects(r))
  {
    match r
    case ForPeer(id, expected, op) => PeerOpAdvances(env, raw, id, expected, op);
    case ForMaterial(expected, m) => MaterialAdvances(env, raw, expected, m);
    case ForRemoval(expectation, removal) => RemovalAdvances(env, raw, expectation, removal, out);
    case ForRepair(expectation, planner, repair) => RepairAdvances(env, raw, expectation, planner, repair, out);
    case ForReset(expectation, planner, reset) => ResetAdvances(env, raw, expectation, planner, reset, out);
    case Scoped(expectation, mutate) => ScopedAdvances(env, raw, expectation, mutate, out);
  }

  /** A request succeeds only at the revision it expects, and moves to the next. */
  lemma AttemptAdvances(env: Env, raw: Fields, r: Request)
    requires env.WellFormed() && Attempt(env, raw, r).Ok?
    ensures Parse(env, raw).Ok? && RevisionOf(env, raw) == Expects(r)
    ensures RevisionOf(env, Attempt(env, raw, r).value) == Some(if Expects(r).Some? then Expects(r).value + 1 else 1)
  {
    var out := Attempt(env, raw, r).value;
    assert Attempt(env, raw, r) == Ok(out);
    RequestAdvances(env, raw, r, out);
  }

  /** One request; a failed one leaves the document alone. */
  function Step(env: Env, raw: Fields, r: Request): Fields {
    if Attempt(env, raw, r).Ok? then Attempt(env, raw, r).value else raw
  }

  function Stepper(env: Env): (Fields, Request) -> Fields {
    (raw: Fields, r: Request) => Step(env, raw, r)
  }

  /** The document after the first i requests, each a step. */
  function After(step: (Fields, Request) -> Fields, raw: Fields, rs: seq<Request>, i: nat): Fields
    requires i <= |rs|
  {
    if i == 0 then raw else step(After(step, raw, rs, i - 1), rs[i - 1])
  }

  function DocumentAfter(env: Env, raw: Fields, rs: seq<Request>, i: nat): Fields
    requires i <= |rs|
  {
    After(Stepper(env), raw, rs, i)
  }

  /** What every step keeps, every run keeps. */
  lemma {:induction false} RunKeeps(step: (Fields, Request) -> Fields, inv: Fields -> bool, raw: Fields, rs: seq<Request>, i: nat, j: nat)
    requires i <= j <= |rs| && inv(After(step, raw, rs, i))
    requires forall d: Fields, k: nat :: k < |rs| && inv(d) ==> inv(step(d, rs[k]))
    ensures inv(After(step, raw, rs, j))
    decreases j
  {
    if i < j {
      RunKeeps(step, inv, raw, rs, i, j - 1);
    }
  }

  predicate Succeeds(env: Env, raw: Fields, rs: seq<Request>, i: nat) {
    i < |rs| && Attempt(env, DocumentAfter(env, raw, rs, i), rs[i]).Ok?
  }

  /** No document, or an older one, stands before a newer one. */
  predicate NotNewer(a: Option<nat>, b: Option<nat>) {
    a.Some? ==> b.Some? && a.value <= b.value
  }

  lemma StepGrows(env: Env, raw: Fields, r: Request)
    requires env.WellFormed()
    ensures NotNewer(RevisionOf(env, raw), RevisionOf(env, Step(env, raw, r)))
  {
    if Attempt(env, raw, r).Ok? {
      AttemptAdvances(env, raw, r);
    }
  }

  /** The revision has reached r. */
  ghost predicate AtLeast(env: Env, raw: Fields, r: nat) {
    RevisionOf(env, raw).Some? && r <= RevisionOf(env, raw).value
  }

  lemma StepKeepsAtLeast(env: Env, raw: Fields, r: Request, rev: nat)
    requires env.WellFormed() && AtLeast(env, raw, rev)
    ensures AtLeast(env, Step(env, raw, r), rev)
  {
    StepGrows(env, raw, r);
  }

  lemma RevisionsGrow(env: Env, raw: Fields, rs: seq<Request>, i: nat, j: nat, rev: nat)
    requires env.WellFormed() && i <= j <= |rs| && AtLeast(env, DocumentAfter(env, raw, rs, i), rev)
    ensures AtLeast(env, DocumentAfter(env, raw, rs, j), rev)
  {
    var inv := (d: Fields) => AtLeast(env, d, rev);
    forall d: Fields, k: nat | k < |rs| && inv(d)
      ensures inv(Stepper(env)(d, rs[k]))
    {
      StepKeepsAtLeast(env, d, rs[k], rev);
    }
    RunKeeps(Stepper(env), inv, raw, rs, i, j);
  }

  /** The revision that a success leads to. */
  function NextOf(expects: Option<nat>): nat {
    if expects.Some? then expects.value + 1 else 1
  }

  lemma OneStep(env: Env, before: Fields, after: Fields, r: Request)
    requires env.WellFormed() && Attempt(env, before, r) == Ok(after)
    ensures RevisionOf(env, before) == Expects(r) && AtLeast(env, after, NextOf(Expects(r)))
  {
    AttemptAdvances(env, before, r);
  }

  /** A request that succeeds finds the revision it expects. */
  lemma WinnerExpects(env: Env, raw: Fields, rs: seq<Request>, i: nat)
    requires env.WellFormed() && Succeeds(env, raw, rs, i)
    ensures RevisionOf(env, DocumentAfter(env, raw, rs, i)) == Expects(rs[i])
  {
    AttemptAdvances(env, DocumentAfter(env, raw, rs, i), rs[i]);
  }

  /** It leaves a later revision. */
  lemma WinnerLeaves(env: Env, raw: Fields, rs: seq<Request>, i: nat)
    requires env.WellFormed() && Succeeds(env, raw, rs, i)
    ensures AtLeast(env, DocumentAfter(env, raw, rs, i + 1), NextOf(Expects(rs[i])))
  {
    var before, after := DocumentAfter(env, raw, rs, i), DocumentAfter(env, raw, rs, i + 1);
    assert after == Step(env, before, rs[i]);
    OneStep(env, before, after, rs[i]);
  }

  lemma WinnerStands(env: Env, raw: Fields, rs: seq<Request>, i: nat, j: nat)
    requires env.WellFormed() && Succeeds(env, raw, rs, i) && i < j <= |rs|
    ensures AtLeast(env, DocumentAfter(env, raw, rs, j), NextOf(Expects(rs[i])))
  {
    WinnerLeaves(env, raw, rs, i);
    RevisionsGrow(env, raw, rs, i + 1, j, NextOf(Expects(rs[i])));
  }

  /** No lost update: among any requests, in any order, those that succeed expect
      strictly increasing revisions, so one revision has at most one winner. */
  lemma OneWinnerPerRevision(env: Env, raw: Fields, rs: seq<Request>, i: nat, j: nat)
    requires env.WellFormed() && i < j
    requires Succeeds(env, raw, rs, i) && Succeeds(env, raw, rs, j)
    ensures Expects(rs[j]).Some?
    ensures Expects(rs[i]).Some? ==> Expects(rs[i]).value < Expects(rs[j]).value
  {
    WinnerStands(env, raw, rs, i, j);
    WinnerExpects(env, raw, rs, j);
  }
}
