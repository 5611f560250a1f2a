/** Parsing, compare-and-swap and writing of the revisioned configuration
    document (internal/config/v2.go). A document is the JSON object in the file;
    file locking and atomic replacement are one step here. */
module Documents {
  import opened Wrappers
  import opened Jsons
  import opened Configs
  import opened Encodings

  const MAX_UINT64: nat := 0xFFFF_FFFF_FFFF_FFFF

  // ---- parsing ----

  datatype RevisionState = PreV2 | MissingRevision | Versioned

  datatype Document = Document(config: Config, state: RevisionState, revision: Option<nat>, raw: Fields)

  function Parse(env: Env, raw: Fields): Result<Document> {
    if ConfigVersion !in raw then
      if !DocTyped(raw) then Err("malformed_config") else Ok(Document(DocView(raw), PreV2, None, raw))
    else if !raw[ConfigVersion].Num? || raw[ConfigVersion].n < 0 then Err("invalid_config_version")
    else if raw[ConfigVersion].n != 2 then Err("unsupported_config_version")
    else if !DocTyped(raw) then Err("malformed_config")
    else
      var cfg :- Normalize(env, DocView(raw));
      if !TransportOk(env, cfg) then Err("invalid_ssh_transport_config")
      else if Absent(raw, ConfigRevision) then Ok(Document(cfg, MissingRevision, None, raw))
      else if !raw[ConfigRevision].Num? || raw[ConfigRevision].n < 0 || raw[ConfigRevision].n > MAX_UINT64 then Err("invalid_config_revision")
      else if raw[ConfigRevision].n == 0 then Err("invalid_config_revision: must be >= 1")
      else
        var revision: nat := raw[ConfigRevision].n;
        Ok(Document(cfg, Versioned, Some(revision), raw))
  }

  /** The revision of a document that has one. */
  function RevisionOf(env: Env, raw: Fields): Option<nat> {
    if Parse(env, raw).Ok? then Parse(env, raw).value.revision else None
  }

  lemma VersionedHasRevision(env: Env, raw: Fields)
    requires Parse(env, raw).Ok?
    ensures var doc := Parse(env, raw).value;
      && doc.raw == raw
      && (doc.state.Versioned? <==> doc.revision.Some?)
      && (doc.revision.Some? ==> 1 <= doc.revision.value <= MAX_UINT64)
  {
  }

  // ---- compare and swap ----

  datatype Expectation = Expectation(state: RevisionState, revision: Option<nat>)

  predicate Meets(doc: Document, expected: Expectation) {
    && doc.state == expected.state
    && (match expected.state
        case Versioned => expected.revision.Some? && expected.revision.value != 0 && doc.revision == expected.revision
        case _ => expected.revision == None)
  }

  function NextRevision(doc: Document): Result<nat> {
    if !doc.state.Versioned? || doc.revision.None? then Ok(1)
    else if doc.revision.value >= MAX_UINT64 then Err("invalid_config_revision: cannot increment max uint64")
    else
      var next: nat := doc.revision.value + 1;
      Ok(next)
  }

  // ---- writing ----

  const SCALARS: set<Key> := {Listen, SharedKey, Discovery, StaticPeers, Hostname, Transport, Port, MaxHistory, ConfigVersion, ConfigRevision}

  function Scalar(cfg: Config, next: nat, k: Key): Json {
    match k
    case Listen => Str(cfg.listen)
    case SharedKey => Str(cfg.sharedKey)
    case Discovery => Str(cfg.discovery)
    case StaticPeers => StrsJson(cfg.staticPeers)
    case Hostname => Str(cfg.hostname)
    case Transport => Str(cfg.transport)
    case Port => Num(cfg.port)
    case MaxHistory => Num(cfg.maxHistory)
    case ConfigVersion => Num(2)
    case ConfigRevision => Num(next)
    case _ => Null
  }

  /** An empty slice of a copied configuration is nil, which encodes as null. */
  function StrsJson(ts: seq<Txt>): Json {
    if ts == [] then Null else Arr(seq(|ts|, i requires 0 <= i < |ts| => Str(ts[i])))
  }

  predicate Zero(j: Json) {
    j == Null || j == Str(Empty) || j == Num(0)
  }

  /** Scalars are written when the document had them or they are not zero;
      nothing else changes. */
  function WithScalars(raw: Fields, cfg: Config, next: nat): Fields {
    map k | k in raw.Keys + SCALARS && (k in SCALARS ==> k in raw || !Zero(Scalar(cfg, next, k)))
      :: if k in SCALARS then Scalar(cfg, next, k) else raw[k]
  }

  lemma StringScalar(raw: Fields, cfg: Config, next: nat, k: Key)
    requires k in SCALARS && Scalar(cfg, next, k).Str?
    ensures StrOk(WithScalars(raw, cfg, next), k)
    ensures StrAt(WithScalars(raw, cfg, next), k) == Scalar(cfg, next, k).s
  {
  }

  lemma NumberScalar(raw: Fields, cfg: Config, next: nat, k: Key)
    requires k in SCALARS && Scalar(cfg, next, k).Num?
    ensures NumOk(WithScalars(raw, cfg, next), k)
    ensures NumAt(WithScalars(raw, cfg, next), k) == Scalar(cfg, next, k).n
    ensures Scalar(cfg, next, k).n != 0 ==> k in WithScalars(raw, cfg, next) && WithScalars(raw, cfg, next)[k] == Scalar(cfg, next, k)
  {
  }

  lemma ListScalar(raw: Fields, cfg: Config, next: nat)
    ensures StrsOk(WithScalars(raw, cfg, next), StaticPeers)
    ensures StrsAt(WithScalars(raw, cfg, next), StaticPeers) == cfg.staticPeers
  {
    assert Scalar(cfg, next, StaticPeers) == StrsJson(cfg.staticPeers);
    assert StrsAt(WithScalars(raw, cfg, next), StaticPeers) == cfg.staticPeers;
  }

  /** Written scalars read back as the configuration they were taken from. */
  lemma ScalarsReadBack(raw: Fields, cfg: Config, next: nat)
    requires next != 0
    ensures var o := WithScalars(raw, cfg, next);
      && ScalarsRead(o, cfg)
      && ConfigVersion in o && o[ConfigVersion] == Num(2)
      && ConfigRevision in o && o[ConfigRevision] == Num(next)
  {
    StringScalar(raw, cfg, next, Listen);
    StringScalar(raw, cfg, next, SharedKey);
    StringScalar(raw, cfg, next, Discovery);
    ListScalar(raw, cfg, next);
    StringScalar(raw, cfg, next, Hostname);
    StringScalar(raw, cfg, next, Transport);
    NumberScalar(raw, cfg, next, Port);
    NumberScalar(raw, cfg, next, MaxHistory);
    NumberScalar(raw, cfg, next, ConfigVersion);
    NumberScalar(raw, cfg, next, ConfigRevision);
  }

  /** The ssh field of a document reads as the given section. */
  predicate SSHReadsAs(env: Env, raw: Fields, ssh: Option<SSHConfig>) {
    if Absent(raw, Ssh) then ssh == None
    else
      && raw[Ssh].Obj? && SSHTyped(raw[Ssh].fields)
      && ssh == Some(NormalizedSSH(env, SSHView(raw[Ssh].fields)))
      && (NeedsHome(env, SSHView(raw[Ssh].fields)) ==> env.homeKnown)
  }

  lemma ParsedReadsAs(env: Env, raw: Fields)
    requires Parse(env, raw).Ok? && !Parse(env, raw).value.state.PreV2?
    ensures DocTyped(raw) && SSHReadsAs(env, raw, Parse(env, raw).value.config.ssh)
    ensures TransportOk(env, Parse(env, raw).value.config)
    ensures Parse(env, raw).value.config == DocView(raw).(ssh := Parse(env, raw).value.config.ssh)
  {
  }

  /** A written document: the scalars come from the checked configuration, the
      rest of the document only has to read as its ssh section. */
  ghost predicate WrittenFrom(env: Env, out: Fields, raw: Fields, cfg: Config, next: nat) {
    && SSHReadsAs(env, out, cfg.ssh)
    && var o := WithScalars(raw, cfg, next);
       forall k :: k != Ssh ==> (k in out <==> k in o) && (k in out ==> out[k] == o[k])
  }

  lemma SameReads(a: Fields, b: Fields, k: Key)
    requires (k in a <==> k in b) && (k in a ==> a[k] == b[k])
    ensures StrOk(a, k) == StrOk(b, k) && StrAt(a, k) == StrAt(b, k)
    ensures NumOk(a, k) == NumOk(b, k) && NumAt(a, k) == NumAt(b, k)
  {
  }

  lemma SameLists(a: Fields, b: Fields, k: Key)
    requires (k in a <==> k in b) && (k in a ==> a[k] == b[k])
    ensures StrsOk(a, k) == StrsOk(b, k) && StrsAt(a, k) == StrsAt(b, k)
  {
  }

  /** The scalars of a document are typed, and read as those of the configuration. */
  ghost predicate ScalarsRead(o: Fields, cfg: Config) {
    && StrOk(o, Listen) && StrOk(o, SharedKey) && StrOk(o, Discovery) && StrsOk(o, StaticPeers)
    && StrOk(o, Hostname) && StrOk(o, Transport) && NumOk(o, Port) && NumOk(o, MaxHistory)
    && StrAt(o, Listen) == cfg.listen && StrAt(o, SharedKey) == cfg.sharedKey && StrAt(o, Discovery) == cfg.discovery
    && StrsAt(o, StaticPeers) == cfg.staticPeers && StrAt(o, Hostname) == cfg.hostname && StrAt(o, Transport) == cfg.transport
    && NumAt(o, Port) == cfg.port && NumAt(o, MaxHistory) == cfg.maxHistory
  }

  lemma SameScalars(out: Fields, o: Fields, cfg: Config)
    requires forall k :: k != Ssh ==> (k in out <==> k in o) && (k in out ==> out[k] == o[k])
    requires ScalarsRead(o, cfg)
    ensures ScalarsRead(out, cfg)
  {
    SameReads(out, o, Listen);
    SameReads(out, o, SharedKey);
    SameReads(out, o, Discovery);
    SameLists(out, o, StaticPeers);
    SameReads(out, o, Hostname);
    SameReads(out, o, Transport);
    SameReads(out, o, Port);
    SameReads(out, o, MaxHistory);
  }

  /** Every accepted write reads back as exactly the configuration that was
      checked, at the next revision. */
  lemma WrittenReadsBack(env: Env, out: Fields, raw: Fields, cfg: Config, next: nat)
    requires WrittenFrom(env, out, raw, cfg, next)
    requires TransportOk(env, cfg) && 1 <= next <= MAX_UINT64
    ensures Parse(env, out) == Ok(Document(cfg, Versioned, Some(next), out))
  {
    var o := WithScalars(raw, cfg, next);
    ScalarsReadBack(raw, cfg, next);
    SameScalars(out, o, cfg);
    ReadBackParses(env, out, cfg, next);
  }

  lemma ReadBackParses(env: Env, out: Fields, cfg: Config, next: nat)
    requires ScalarsRead(out, cfg) && SSHReadsAs(env, out, cfg.ssh) && TransportOk(env, cfg) && 1 <= next <= MAX_UINT64
    requires ConfigVersion in out && out[ConfigVersion] == Num(2) && ConfigRevision in out && out[ConfigRevision] == Num(next)
    ensures Parse(env, out) == Ok(Document(cfg, Versioned, Some(next), out))
  {
    var view := DocView(out);
    assert view == cfg.(ssh := view.ssh);
    assert Normalize(env, view) == Ok(cfg);
  }

  // ---- the two ways of writing ----

  /** Writing from raw fields that the mutator edited itself. */
  function MarshalPreserving(raw: Fields, cfg: Config, next: nat): Fields {
    var out := WithScalars(raw, cfg, next);
    if cfg.ssh.None? then out - {Ssh}
    else if Ssh in out then out
    else out[Ssh := Obj(EncodeSSH(cfg.ssh.value))]
  }

  /** Does the typed ssh section differ from the one read? The copy handed to the
      mutator holds nil where the document has an empty peer list, which counts
      as a difference. */
  predicate RewritesSSH(doc: Document, cfg: Config) {
    cfg.ssh != doc.config.ssh || (!Absent(doc.raw, Ssh) && Peers in ObjAt(doc.raw, Ssh) && ObjAt(doc.raw, Ssh)[Peers] == Arr([]))
  }

  /** Writing from the typed configuration: the ssh section is encoded afresh
      when it changed and kept otherwise. */
  function MarshalTyped(doc: Document, cfg: Config, next: nat): Fields {
    var out := WithScalars(doc.raw, cfg, next);
    if !RewritesSSH(doc, cfg) then out
    else if cfg.ssh.Some? then out[Ssh := Obj(EncodeSSH(cfg.ssh.value))]
    else out - {Ssh}
  }

  /** The mutation of a first write: it only gives the document a revision. */
  function KeepConfig(cfg: Config): Result<Config> {
    Ok(cfg)
  }

  /** The scoped update with a mutation of the typed configuration. */
  function UpdateScoped(env: Env, raw: Fields, expected: Expectation, mutate: Config -> Result<Config>): Result<Fields> {
    var doc :- Parse(env, raw);
    if !Meets(doc, expected) then Err("config_revision_conflict") else
    var mutated :- mutate(doc.config);
    var cfg :- Normalize(env, mutated);
    if !TransportOk(env, cfg) then Err("invalid_ssh_transport_config") else
    var next :- NextRevision(doc);
    Ok(MarshalTyped(doc, cfg, next))
  }

  /** A normalised section that passed validation needs no further expansion. */
  lemma NormalizedIsStable(env: Env, ssh: SSHConfig)
    requires env.WellFormed() && LimitsOk(env, ssh)
    ensures NormalizedSSH(env, ssh) == ssh && !NeedsHome(env, ssh)
  {
  }

  lemma UnchangedSSHReadsBack(env: Env, raw: Fields)
    requires Parse(env, raw).Ok?
    ensures var ssh := Parse(env, raw).value.config.ssh;
      (ssh.Some? ==> !NeedsHome(env, ssh.value)) ==> SSHReadsAs(env, raw, ssh)
  {
  }

  lemma MarshalTypedWrites(env: Env, doc: Document, cfg: Config, next: nat)
    requires env.WellFormed() && TransportOk(env, cfg) && Parse(env, doc.raw) == Ok(doc)
    ensures WrittenFrom(env, MarshalTyped(doc, cfg, next), doc.raw, cfg, next)
  {
    if cfg.ssh.Some? {
      NormalizedIsStable(env, cfg.ssh.value);
      SSHReadsBack(cfg.ssh.value);
    }
    if RewritesSSH(doc, cfg) {
      FreshSectionWrites(env, doc, cfg, next);
    } else {
      UnchangedSSHReadsBack(env, doc.raw);
    }
  }

  lemma FreshSectionWrites(env: Env, doc: Document, cfg: Config, next: nat)
    requires RewritesSSH(doc, cfg)
    requires cfg.ssh.Some? ==> NormalizedSSH(env, cfg.ssh.value) == cfg.ssh.value && !NeedsHome(env, cfg.ssh.value)
    requires cfg.ssh.Some? ==> SSHTyped(EncodeSSH(cfg.ssh.value)) && SSHView(EncodeSSH(cfg.ssh.value)) == cfg.ssh.value
    ensures WrittenFrom(env, MarshalTyped(doc, cfg, next), doc.raw, cfg, next)
  {
  }

  /** The scoped update reads back as the configuration the mutation asked for,
      whatever the mutation, and advances the revision by one. */
  lemma ScopedReadsBack(env: Env, raw: Fields, expected: Expectation, mutate: Config -> Result<Config>)
    requires env.WellFormed() && UpdateScoped(env, raw, expected, mutate).Ok?
    ensures Parse(env, raw).Ok?
    ensures var out, doc := UpdateScoped(env, raw, expected, mutate).value, Parse(env, raw).value;
      && Meets(doc, expected) && NextRevision(doc).Ok? && mutate(doc.config).Ok?
      && Normalize(env, mutate(doc.config).value).Ok?
      && Parse(env, out) == Ok(Document(Normalize(env, mutate(doc.config).value).value, Versioned, Some(NextRevision(doc).value), out))
  {
    var out := UpdateScoped(env, raw, expected, mutate).value;
    var doc, cfg, next := ScopedSteps(env, raw, expected, mutate);
    VersionedHasRevision(env, raw);
    MarshalTypedWrites(env, doc, cfg, next);
    WrittenReadsBack(env, out, raw, cfg, next);
  }

  /** What an accepted update went through. */
  lemma ScopedSteps(env: Env, raw: Fields, expected: Expectation, mutate: Config -> Result<Config>)
    returns (doc: Document, cfg: Config, next: nat)
    requires UpdateScoped(env, raw, expected, mutate).Ok?
    ensures Parse(env, raw) == Ok(doc) && doc.raw == raw && Meets(doc, expected) && NextRevision(doc) == Ok(next)
    ensures mutate(doc.config).Ok? && Normalize(env, mutate(doc.config).value) == Ok(cfg) && TransportOk(env, cfg)
    ensures UpdateScoped(env, raw, expected, mutate) == Ok(MarshalTyped(doc, cfg, next))
  {
    VersionedHasRevision(env, raw);
    doc := Parse(env, raw).value;
    cfg := Normalize(env, mutate(doc.config).value).value;
    next := NextRevision(doc).value;
  }
}
