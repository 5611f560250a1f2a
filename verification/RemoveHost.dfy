/** Removing a host by name from the static peers and the ssh peers, in one write
    (internal/config/remove_host.go). */
module HostRemovals {
  import opened Wrappers
  import opened Jsons
  import opened Configs
  import opened Documents
  import opened PeerOps
  import opened PeerLists
  import opened PeerEffects

  datatype Removal = Removal(host: Txt, reason: Txt, logID: Txt, at: Txt)

  /** Without the static peers that name the host. */
  function StaticKept(env: Env, peers: seq<Txt>, host: Txt): seq<Txt> {
    if peers == [] then []
    else
      var n := |peers| - 1;
      StaticKept(env, peers[..n], host) + if env.removalMatches(peers[n], host) then [] else [peers[n]]
  }

  /** The in-place filter of the static peers. */
  method RemoveFromStaticPeers(env: Env, peers: seq<Txt>, host: Txt) returns (kept: seq<Txt>, removed: bool)
    ensures kept == StaticKept(env, peers, host)
    ensures removed <==> exists i :: 0 <= i < |peers| && env.removalMatches(peers[i], host)
  {
    kept, removed := [], false;
    for i := 0 to |peers|
      invariant kept == StaticKept(env, peers[..i], host)
      invariant removed <==> exists j :: 0 <= j < i && env.removalMatches(peers[j], host)
    {
      assert peers[..i + 1][..i] == peers[..i];
      if env.removalMatches(peers[i], host) {
        removed := true;
        continue;
      }
      kept := kept + [peers[i]];
    }
    assert peers[..|peers|] == peers;
  }

  /** The filter works on any split of the list, so it keeps the order. */
  lemma {:induction false} StaticKeptConcat(env: Env, a: seq<Txt>, b: seq<Txt>, host: Txt)
    ensures StaticKept(env, a + b, host) == StaticKept(env, a, host) + StaticKept(env, b, host)
    decreases |b|
  {
    if b == [] {
      assert a + b == a;
    } else {
      var n := |b| - 1;
      StaticKeptConcat(env, a, b[..n], host);
      assert (a + b)[..|a + b| - 1] == a + b[..n];
    }
  }

  /** What is left is every static peer that does not name the host, as often as
      it was there. */
  lemma {:induction false} StaticKeptAre(env: Env, peers: seq<Txt>, host: Txt, t: Txt)
    ensures multiset(StaticKept(env, peers, host))[t] == if env.removalMatches(t, host) then 0 else multiset(peers)[t]
  {
    if peers != [] {
      var n := |peers| - 1;
      StaticKeptAre(env, peers[..n], host, t);
      assert peers == peers[..n] + [peers[n]];
    }
  }

  /** The ids of the peers that name the host; any invalid id is an error. */
  function MatchingIDs(env: Env, peers: seq<Fields>, host: Txt): Result<seq<Txt>> {
    if peers == [] then Ok([])
    else if !env.hostIDOk(StrAt(peers[0], Id)) then Err("invalid_ssh_peer_id")
    else
      var rest :- MatchingIDs(env, peers[1..], host);
      Ok((if env.removalMatches(StrAt(peers[0], Id), host) then [StrAt(peers[0], Id)] else []) + rest)
  }

  lemma {:induction false} MatchingAre(env: Env, peers: seq<Fields>, host: Txt, id: Txt)
    requires MatchingIDs(env, peers, host).Ok?
    ensures id in MatchingIDs(env, peers, host).value <==>
      exists i :: 0 <= i < |peers| && StrAt(peers[i], Id) == id && env.removalMatches(id, host)
  {
    if peers != [] {
      MatchingAre(env, peers[1..], host, id);
      assert forall i :: 0 < i < |peers| ==> peers[i] == peers[1..][i - 1];
      if id in MatchingIDs(env, peers[1..], host).value {
        var j :| 0 <= j < |peers[1..]| && StrAt(peers[1..][j], Id) == id && env.removalMatches(id, host);
        assert StrAt(peers[j + 1], Id) == id;
      }
    }
  }

  /** One deletion after the other. */
  function DeleteAll(env: Env, ssh: Fields, peers: seq<Fields>, ids: seq<Txt>, r: Removal): Result<Edit>
    decreases |ids|
  {
    if ids == [] then Ok(Edit(ssh, peers))
    else
      var edit :- ApplyDelete(env, ssh, peers, ids[0], r.reason, r.logID, r.at);
      DeleteAll(env, edit.ssh, edit.peers, ids[1..], r)
  }

  predicate RemovalOk(env: Env, r: Removal) {
    (env.hostIDOk(r.host) || env.canonicalHost(r.host).Some?) && env.reasonOk(r.reason) && !env.blank(r.logID)
  }

  /** What the removal makes of the typed configuration. */
  function RemovedConfig(env: Env, cfg: Config, host: Txt, deleted: bool, peers: seq<Fields>): Config {
    var kept := cfg.(staticPeers := StaticKept(env, cfg.staticPeers, host));
    if deleted then WithPeers(kept, peers) else kept
  }

  function RunRemoval(env: Env, raw: Fields, expected: Expectation, r: Removal): Result<Fields> {
    if !RemovalOk(env, r) then Err("invalid_host_remove_field") else
    var doc :- Parse(env, raw);
    if !Meets(doc, expected) then Err("config_revision_conflict") else
    var ids :- MatchingIDs(env, PeersOf(raw), r.host);
    var edit :- DeleteAll(env, ObjAt(raw, Ssh), PeersOf(raw), ids, r);
    if ids == [] && StaticKept(env, doc.config.staticPeers, r.host) == doc.config.staticPeers then Err("host_not_found") else
    CommitRemoval(env, doc, r.host, ids != [], edit)
  }

  function CommitRemoval(env: Env, doc: Document, host: Txt, deleted: bool, edit: Edit): Result<Fields> {
    if !PeersTyped(edit.peers) then Err("invalid_ssh_peer") else
    var cfg :- Normalize(env, RemovedConfig(env, doc.config, host, deleted, edit.peers));
    if !TransportOk(env, cfg) then Err("invalid_ssh_transport_config") else
    var next :- NextRevision(doc);
    Ok(MarshalPreserving(RemovedRaw(doc.raw, deleted, edit), cfg, next))
  }

  function RemovedRaw(raw: Fields, deleted: bool, edit: Edit): Fields {
    if deleted then WithEdit(raw, edit) else raw
  }

  // ---- the peers that are left ----

  /** The peers that do not name the host, in order. */
  function NotNaming(env: Env, peers: seq<Fields>, host: Txt): seq<Fields> {
    if peers == [] then []
    else (if env.removalMatches(StrAt(peers[0], Id), host) then [] else [peers[0]]) + NotNaming(env, peers[1..], host)
  }

  lemma {:induction false} NothingNames(env: Env, peers: seq<Fields>, host: Txt)
    requires MatchingIDs(env, peers, host) == Ok([])
    ensures NotNaming(env, peers, host) == peers
  {
    if peers != [] {
      NothingNames(env, peers[1..], host);
      assert [peers[0]] + peers[1..] == peers;
    }
  }

  /** Deleting the first peer with the first of the ids, which may occur again in
      a document that was never validated, leaves the rest of the work. */
  lemma {:induction false} OneFewerNames(env: Env, peers: seq<Fields>, host: Txt, ids: seq<Txt>, i: nat)
    requires MatchingIDs(env, peers, host) == Ok(ids) && ids != []
    requires i < |peers| && StrAt(peers[i], Id) == ids[0] && forall j :: 0 <= j < i ==> StrAt(peers[j], Id) != ids[0]
    ensures MatchingIDs(env, peers[..i] + peers[i + 1..], host) == Ok(ids[1..])
    ensures NotNaming(env, peers[..i] + peers[i + 1..], host) == NotNaming(env, peers, host)
  {
    if env.removalMatches(StrAt(peers[0], Id), host) {
      FirstNames(env, peers, host, ids);
      assert i == 0;
      assert peers[..0] + peers[1..] == peers[1..];
    } else {
      MatchingAre(env, peers, host, ids[0]);
      assert i > 0;
      FirstIsOther(env, peers, host, ids);
      assert StrAt(peers[1..][i - 1], Id) == ids[0];
      assert forall j :: 0 <= j < i - 1 ==> StrAt(peers[1..][j], Id) == StrAt(peers[j + 1], Id);
      OneFewerNames(env, peers[1..], host, ids, i - 1);
      OneFewerBehind(env, peers[0], peers[1..], host, ids, i - 1);
      FirstStays(peers, i);
    }
  }

  lemma FirstStays(peers: seq<Fields>, i: nat)
    requires 0 < i < |peers|
    ensures [peers[0]] + peers[1..] == peers
    ensures [peers[0]] + (peers[1..][..i - 1] + peers[1..][i..]) == peers[..i] + peers[i + 1..]
  {
  }

  lemma OneFewerBehind(env: Env, peer: Fields, rest: seq<Fields>, host: Txt, ids: seq<Txt>, i: nat)
    requires env.hostIDOk(StrAt(peer, Id)) && !env.removalMatches(StrAt(peer, Id), host) && i < |rest| && ids != []
    requires MatchingIDs(env, rest, host) == Ok(ids)
    requires MatchingIDs(env, rest[..i] + rest[i + 1..], host) == Ok(ids[1..])
    requires NotNaming(env, rest[..i] + rest[i + 1..], host) == NotNaming(env, rest, host)
    ensures MatchingIDs(env, [peer] + (rest[..i] + rest[i + 1..]), host) == Ok(ids[1..])
    ensures NotNaming(env, [peer] + (rest[..i] + rest[i + 1..]), host) == NotNaming(env, [peer] + rest, host)
  {
    OtherFirst(env, peer, rest[..i] + rest[i + 1..], host, ids[1..]);
    OtherFirst(env, peer, rest, host, ids);
  }

  lemma FirstNames(env: Env, peers: seq<Fields>, host: Txt, ids: seq<Txt>)
    requires MatchingIDs(env, peers, host) == Ok(ids) && peers != [] && env.removalMatches(StrAt(peers[0], Id), host)
    ensures ids != [] && ids[0] == StrAt(peers[0], Id) && MatchingIDs(env, peers[1..], host) == Ok(ids[1..])
    ensures NotNaming(env, peers[1..], host) == NotNaming(env, peers, host)
  {
    var rest := MatchingIDs(env, peers[1..], host).value;
    assert ids == [StrAt(peers[0], Id)] + rest;
    assert ids[1..] == rest;
    assert [] + NotNaming(env, peers[1..], host) == NotNaming(env, peers[1..], host);
  }

  lemma FirstIsOther(env: Env, peers: seq<Fields>, host: Txt, ids: seq<Txt>)
    requires MatchingIDs(env, peers, host) == Ok(ids) && peers != [] && !env.removalMatches(StrAt(peers[0], Id), host)
    ensures MatchingIDs(env, peers[1..], host) == Ok(ids) && env.hostIDOk(StrAt(peers[0], Id))
  {
    var rest := MatchingIDs(env, peers[1..], host);
    assert rest.Ok? && [] + rest.value == rest.value;
    assert ids == [] + rest.value;
  }

  lemma OtherFirst(env: Env, peer: Fields, rest: seq<Fields>, host: Txt, ids: seq<Txt>)
    requires env.hostIDOk(StrAt(peer, Id)) && !env.removalMatches(StrAt(peer, Id), host) && MatchingIDs(env, rest, host) == Ok(ids)
    ensures MatchingIDs(env, [peer] + rest, host) == Ok(ids)
    ensures NotNaming(env, [peer] + rest, host) == [peer] + NotNaming(env, rest, host)
  {
    var all := [peer] + rest;
    assert all[1..] == rest && [] + ids == ids;
  }

  lemma {:induction false} FoundIsFirst(env: Env, peers: seq<Fields>, id: Txt, i: nat)
    requires i <= |peers| && FindFrom(env, peers, id, i).Ok? && FindFrom(env, peers, id, i).value.Some?
    ensures forall j :: i <= j < FindFrom(env, peers, id, i).value.value ==> StrAt(peers[j], Id) != id
    decreases |peers| - i
  {
    if StrAt(peers[i], Id) != id {
      FoundIsFirst(env, peers, id, i + 1);
    }
  }

  /** What one deletion of a removal leaves. */
  lemma OneDeletion(env: Env, ssh: Fields, peers: seq<Fields>, id: Txt, r: Removal) returns (edit: Edit, i: nat)
    requires ApplyDelete(env, ssh, peers, id, r.reason, r.logID, r.at).Ok?
    ensures ApplyDelete(env, ssh, peers, id, r.reason, r.logID, r.at) == Ok(edit)
    ensures i < |peers| && StrAt(peers[i], Id) == id && forall j :: 0 <= j < i ==> StrAt(peers[j], Id) != id
    ensures edit.peers == peers[..i] + peers[i + 1..]
    ensures SameButLogs(ssh, edit.ssh) && LogsGrow(ssh, edit.ssh)
  {
    edit := ApplyDelete(env, ssh, peers, id, r.reason, r.logID, r.at).value;
    i := Find(env, peers, id).value.value;
    FoundIsFirst(env, peers, id, 0);
    DeleteEditsFrom(env, ssh, peers, id, r.reason, r.logID, r.at);
    DeleteGrowsLogs(env, ssh, peers, id, r.reason, r.logID, r.at);
  }

  lemma SectionsCompose(a: Fields, b: Fields, c: Fields)
    requires SameButLogs(a, b) && SameButLogs(b, c) && LogsGrow(a, b) && LogsGrow(b, c)
    ensures SameButLogs(a, c) && LogsGrow(a, c)
  {
  }

  lemma {:induction false} NamesAreGone(env: Env, peers: seq<Fields>, host: Txt)
    requires MatchingIDs(env, peers, host).Ok?
    ensures |NotNaming(env, peers, host)| + |MatchingIDs(env, peers, host).value| == |peers|
    ensures MatchingIDs(env, peers, host).value == [] <==> NotNaming(env, peers, host) == peers
  {
    if peers != [] {
      NamesAreGone(env, peers[1..], host);
    }
    if MatchingIDs(env, peers, host).value == [] {
      NothingNames(env, peers, host);
    }
  }

  /** Deletions only add to the logs of the section. */
  lemma {:induction false} DeleteAllGrows(env: Env, ssh: Fields, peers: seq<Fields>, ids: seq<Txt>, r: Removal)
    requires DeleteAll(env, ssh, peers, ids, r).Ok?
    ensures SameButLogs(ssh, DeleteAll(env, ssh, peers, ids, r).value.ssh)
    ensures LogsGrow(ssh, DeleteAll(env, ssh, peers, ids, r).value.ssh)
    decreases |ids|
  {
    if ids != [] {
      var edit, i := OneDeletion(env, ssh, peers, ids[0], r);
      assert DeleteAll(env, ssh, peers, ids, r) == DeleteAll(env, edit.ssh, edit.peers, ids[1..], r);
      DeleteAllGrows(env, edit.ssh, edit.peers, ids[1..], r);
      SectionsCompose(ssh, edit.ssh, DeleteAll(env, ssh, peers, ids, r).value.ssh);
    }
  }

  /** The repeated deletions are one filter. */
  lemma {:induction false} DeleteAllFilters(env: Env, ssh: Fields, peers: seq<Fields>, ids: seq<Txt>, r: Removal)
    requires MatchingIDs(env, peers, r.host) == Ok(ids) && DeleteAll(env, ssh, peers, ids, r).Ok?
    ensures DeleteAll(env, ssh, peers, ids, r).value.peers == NotNaming(env, peers, r.host)
    decreases |ids|
  {
    if ids == [] {
      NothingNames(env, peers, r.host);
    } else {
      var edit, i := OneDeletion(env, ssh, peers, ids[0], r);
      OneFewerNames(env, peers, r.host, ids, i);
      assert DeleteAll(env, ssh, peers, ids, r) == DeleteAll(env, edit.ssh, edit.peers, ids[1..], r);
      DeleteAllFilters(env, edit.ssh, edit.peers, ids[1..], r);
    }
  }

  // ---- reading back ----

  /** The ssh section that a parsed document stands for, expanded. */
  lemma ParsedSection(env: Env, doc: Document)
    requires env.WellFormed() && Parse(env, doc.raw) == Ok(doc)
    requires Normalize(env, doc.config).Ok?
    ensures SSHReadsAs(env, doc.raw, Normalize(env, doc.config).value.ssh)
  {
    if doc.state.PreV2? {
      assert doc.config == DocView(doc.raw);
    } else {
      ParsedReadsAs(env, doc.raw);
      if doc.config.ssh.Some? {
        NormalizedIsStable(env, doc.config.ssh.value);
      }
    }
  }

  /** Normalising looks at the two paths only. */
  lemma NormalizeKeepsPeers(env: Env, cfg: Config, host: Txt, deleted: bool, peers: seq<Fields>)
    requires Normalize(env, RemovedConfig(env, cfg, host, deleted, peers)).Ok? && (deleted ==> cfg.ssh.Some?)
    ensures Normalize(env, cfg).Ok?
    ensures Normalize(env, RemovedConfig(env, cfg, host, deleted, peers)).value ==
      RemovedConfig(env, Normalize(env, cfg).value, host, deleted, peers)
  {
  }

  lemma RemovedReadsAs(env: Env, raw: Fields, cfg: Config, host: Txt, deleted: bool, edit: Edit)
    requires env.WellFormed() && SSHReadsAs(env, raw, cfg.ssh) && (deleted ==> cfg.ssh.Some?)
    requires SameButLogs(ObjAt(raw, Ssh), edit.ssh) && PeersTyped(edit.peers)
    ensures SSHReadsAs(env, RemovedRaw(raw, deleted, edit), RemovedConfig(env, cfg, host, deleted, edit.peers).ssh)
  {
    if deleted {
      SectionReads(env, raw, cfg);
      LoggedSectionReadsAs(env, ObjAt(raw, Ssh), edit);
      WithPeersReads(env, raw, edit, SectionOf(cfg));
    }
  }

  lemma AnyPreservingWrites(env: Env, raw: Fields, cfg: Config, next: nat)
    requires SSHReadsAs(env, raw, cfg.ssh)
    ensures WrittenFrom(env, MarshalPreserving(raw, cfg, next), raw, cfg, next)
  {
    if cfg.ssh.Some? {
      PreservingWrites(env, raw, cfg, next);
    } else {
      NoSectionWrites(env, raw, cfg, next);
    }
  }

  lemma NoSectionWrites(env: Env, raw: Fields, cfg: Config, next: nat)
    requires cfg.ssh.None?
    ensures WrittenFrom(env, MarshalPreserving(raw, cfg, next), raw, cfg, next)
  {
    var out := MarshalPreserving(raw, cfg, next);
    assert out == WithScalars(raw, cfg, next) - {Ssh};
    assert Absent(out, Ssh);
  }

  /** Peers that match come from an ssh section. */
  lemma NoPeersNoMatches(env: Env, peers: seq<Fields>, host: Txt)
    requires MatchingIDs(env, peers, host).Ok?
    ensures MatchingIDs(env, peers, host).value != [] ==> peers != []
  {
  }

  lemma RemovalReadsBackAs(env: Env, raw: Fields, cfg: Config, host: Txt, deleted: bool, edit: Edit, next: nat)
    requires env.WellFormed() && SSHReadsAs(env, raw, cfg.ssh) && (deleted ==> cfg.ssh.Some?)
    requires SameButLogs(ObjAt(raw, Ssh), edit.ssh) && PeersTyped(edit.peers)
    requires TransportOk(env, RemovedConfig(env, cfg, host, deleted, edit.peers)) && 1 <= next <= MAX_UINT64
    ensures var out := MarshalPreserving(RemovedRaw(raw, deleted, edit), RemovedConfig(env, cfg, host, deleted, edit.peers), next);
      Parse(env, out) == Ok(Document(RemovedConfig(env, cfg, host, deleted, edit.peers), Versioned, Some(next), out))
  {
    var edited, checked := RemovedRaw(raw, deleted, edit), RemovedConfig(env, cfg, host, deleted, edit.peers);
    RemovedReadsAs(env, raw, cfg, host, deleted, edit);
    AnyPreservingWrites(env, edited, checked, next);
    WrittenReadsBack(env, MarshalPreserving(edited, checked, next), edited, checked, next);
  }

  lemma CommitRemovalWrites(env: Env, doc: Document, host: Txt, deleted: bool, edit: Edit, out: Fields)
    requires (deleted ==> doc.config.ssh.Some?) && CommitRemoval(env, doc, host, deleted, edit) == Ok(out)
    ensures NextRevision(doc).Ok? && Normalize(env, doc.config).Ok? && PeersTyped(edit.peers)
    ensures var checked := RemovedConfig(env, Normalize(env, doc.config).value, host, deleted, edit.peers);
      TransportOk(env, checked) && out == MarshalPreserving(RemovedRaw(doc.raw, deleted, edit), checked, NextRevision(doc).value)
  {
    NormalizeKeepsPeers(env, doc.config, host, deleted, edit.peers);
  }

  lemma CommittedRemovalReadsBack(env: Env, doc: Document, host: Txt, deleted: bool, edit: Edit, out: Fields)
    requires env.WellFormed() && Parse(env, doc.raw) == Ok(doc) && (deleted ==> PeersOf(doc.raw) != [])
    requires SameButLogs(ObjAt(doc.raw, Ssh), edit.ssh) && CommitRemoval(env, doc, host, deleted, edit) == Ok(out)
    ensures NextRevision(doc).Ok? && Normalize(env, doc.config).Ok?
    ensures Parse(env, out) ==
      Ok(Document(RemovedConfig(env, Normalize(env, doc.config).value, host, deleted, edit.peers), Versioned, Some(NextRevision(doc).value), out))
  {
    SectionOfPeers(env, doc);
    CommitRemovalWrites(env, doc, host, deleted, edit, out);
    ParsedSection(env, doc);
    NextInRange(env, doc);
    RemovalReadsBackAs(env, doc.raw, Normalize(env, doc.config).value, host, deleted, edit, NextRevision(doc).value);
  }

  lemma NextInRange(env: Env, doc: Document)
    requires Parse(env, doc.raw) == Ok(doc)
    ensures NextRevision(doc).Ok? ==> 1 <= NextRevision(doc).value <= MAX_UINT64
    ensures NextRevision(doc).Ok? ==> NextRevision(doc).value == if doc.revision.Some? then doc.revision.value + 1 else 1
  {
    VersionedHasRevision(env, doc.raw);
  }

  lemma SectionOfPeers(env: Env, doc: Document)
    requires Parse(env, doc.raw) == Ok(doc)
    ensures PeersOf(doc.raw) != [] ==> doc.config.ssh.Some?
  {
  }

  // ---- the removal as a whole ----

  /** The ids and the edit of a removal that succeeded. */
  lemma RemovalSteps(env: Env, raw: Fields, expected: Expectation, r: Removal, out: Fields) returns (ids: seq<Txt>, edit: Edit)
    requires RunRemoval(env, raw, expected, r) == Ok(out)
    ensures Parse(env, raw).Ok? && MatchingIDs(env, PeersOf(raw), r.host) == Ok(ids)
    ensures Parse(env, raw).value.raw == raw && Meets(Parse(env, raw).value, expected)
    ensures CommitRemoval(env, Parse(env, raw).value, r.host, ids != [], edit) == Ok(out)
    ensures SameButLogs(ObjAt(raw, Ssh), edit.ssh)
    ensures edit.peers == NotNaming(env, PeersOf(raw), r.host) && LogsGrow(ObjAt(raw, Ssh), edit.ssh)
    ensures ids != [] ==> PeersOf(raw) != []
  {
    VersionedHasRevision(env, raw);
    ids := MatchingIDs(env, PeersOf(raw), r.host).value;
    edit := DeleteAll(env, ObjAt(raw, Ssh), PeersOf(raw), ids, r).value;
    DeleteAllGrows(env, ObjAt(raw, Ssh), PeersOf(raw), ids, r);
    DeleteAllFilters(env, ObjAt(raw, Ssh), PeersOf(raw), ids, r);
    NoPeersNoMatches(env, PeersOf(raw), r.host);
  }

  /** A configuration without the static peers that name the host and with these
      ssh peers left. */
  function ConfigWithout(env: Env, cfg: Config, host: Txt, left: seq<Fields>): Config {
    cfg.(staticPeers := StaticKept(env, cfg.staticPeers, host),
         ssh := if cfg.ssh.None? then None else Some(cfg.ssh.value.(peers := PeerViews(left))))
  }

  lemma RemovedIsWithout(env: Env, cfg: Config, host: Txt, deleted: bool, peers: seq<Fields>, left: seq<Fields>)
    requires cfg.ssh.Some? ==> cfg.ssh.value.peers == PeerViews(peers)
    requires (deleted ==> cfg.ssh.Some?) && (!deleted ==> left == peers)
    ensures RemovedConfig(env, cfg, host, deleted, left) == ConfigWithout(env, cfg, host, left)
  {
  }

  lemma NormalizedPeers(env: Env, doc: Document)
    requires Parse(env, doc.raw) == Ok(doc) && Normalize(env, doc.config).Ok?
    ensures var ssh := Normalize(env, doc.config).value.ssh; ssh.Some? ==> ssh.value.peers == PeerViews(PeersOf(doc.raw))
    ensures PeersOf(doc.raw) != [] ==> Normalize(env, doc.config).value.ssh.Some?
  {
  }

  /** An accepted removal reads back as exactly the configuration without the
      host, its paths expanded, at the next revision. */
  lemma RemovalReadsBack(env: Env, raw: Fields, expected: Expectation, r: Removal, out: Fields)
    requires env.WellFormed() && RunRemoval(env, raw, expected, r) == Ok(out)
    ensures Parse(env, raw).Ok? && Parse(env, raw).value.revision == expected.revision
    ensures Normalize(env, Parse(env, raw).value.config).Ok?
    ensures Parse(env, out) == Ok(Document(
        ConfigWithout(env, Normalize(env, Parse(env, raw).value.config).value, r.host, NotNaming(env, PeersOf(raw), r.host)),
        Versioned, Some(if expected.revision.Some? then expected.revision.value + 1 else 1), out))
  {
    var ids, edit := RemovalSteps(env, raw, expected, r, out);
    NamesAreGone(env, PeersOf(raw), r.host);
    RemovalResult(env, Parse(env, raw).value, expected, r.host, ids != [], edit, out);
  }

  lemma RemovalResult(env: Env, doc: Document, expected: Expectation, host: Txt, deleted: bool, edit: Edit, out: Fields)
    requires env.WellFormed() && Parse(env, doc.raw) == Ok(doc) && Meets(doc, expected) && (deleted ==> PeersOf(doc.raw) != [])
    requires SameButLogs(ObjAt(doc.raw, Ssh), edit.ssh) && CommitRemoval(env, doc, host, deleted, edit) == Ok(out)
    requires !deleted ==> edit.peers == PeersOf(doc.raw)
    ensures doc.revision == expected.revision && Normalize(env, doc.config).Ok?
    ensures Parse(env, out) == Ok(Document(ConfigWithout(env, Normalize(env, doc.config).value, host, edit.peers),
        Versioned, Some(if expected.revision.Some? then expected.revision.value + 1 else 1), out))
  {
    assert doc.revision == expected.revision by {
      VersionedHasRevision(env, doc.raw);
    }
    NextInRange(env, doc);
    CommittedRemovalReadsBack(env, doc, host, deleted, edit, out);
    NormalizedPeers(env, doc);
    RemovedIsWithout(env, Normalize(env, doc.config).value, host, deleted, PeersOf(doc.raw), edit.peers);
  }

  /** Exactly the peers that name the host are gone, the others are untouched and
      in order, the logs only grow and no other field outside the scalars changes. */
  lemma RemovalFrame(env: Env, raw: Fields, expected: Expectation, r: Removal, out: Fields)
    requires env.WellFormed() && RunRemoval(env, raw, expected, r) == Ok(out)
    ensures PeersOf(out) == NotNaming(env, PeersOf(raw), r.host)
    ensures LogsGrow(ObjAt(raw, Ssh), ObjAt(out, Ssh)) && TopFramed(raw, out)
  {
    var ids, edit := RemovalSteps(env, raw, expected, r, out);
    CommittedFrame(env, Parse(env, raw).value, r.host, ids, edit, out);
  }

  lemma CommittedFrame(env: Env, doc: Document, host: Txt, ids: seq<Txt>, edit: Edit, out: Fields)
    requires env.WellFormed() && Parse(env, doc.raw) == Ok(doc) && MatchingIDs(env, PeersOf(doc.raw), host) == Ok(ids)
    requires CommitRemoval(env, doc, host, ids != [], edit) == Ok(out) && (ids != [] ==> PeersOf(doc.raw) != [])
    requires edit.peers == NotNaming(env, PeersOf(doc.raw), host) && LogsGrow(ObjAt(doc.raw, Ssh), edit.ssh)
    requires SameButLogs(ObjAt(doc.raw, Ssh), edit.ssh)
    ensures PeersOf(out) == edit.peers && LogsGrow(ObjAt(doc.raw, Ssh), ObjAt(out, Ssh)) && TopFramed(doc.raw, out)
  {
    var raw := doc.raw;
    SectionOfPeers(env, doc);
    CommitRemovalWrites(env, doc, host, ids != [], edit, out);
    ParsedSection(env, doc);
    var cfg := RemovedConfig(env, Normalize(env, doc.config).value, host, ids != [], edit.peers);
    if ids != [] {
      MarshalKeeps(env, raw, edit, cfg, NextRevision(doc).value);
      PeersStay(ObjAt(raw, Ssh), edit);
    } else {
      NothingNames(env, PeersOf(raw), host);
      NothingDeleted(env, raw, cfg, NextRevision(doc).value);
    }
  }

  lemma PeersStay(before: Fields, edit: Edit)
    requires LogsGrow(before, edit.ssh)
    ensures LogsGrow(before, edit.ssh[Peers := PeersJson(edit.peers)])
  {
    var o := edit.ssh[Peers := PeersJson(edit.peers)];
    assert ItemsAt(o, AuditLog) == ItemsAt(edit.ssh, AuditLog);
    assert ItemsAt(o, Remediation) == ItemsAt(edit.ssh, Remediation);
  }

  lemma NothingDeleted(env: Env, raw: Fields, cfg: Config, next: nat)
    requires cfg.ssh.Some? ==> Ssh in raw
    requires cfg.ssh.None? ==> ObjAt(raw, Ssh) == map[]
    ensures ObjAt(MarshalPreserving(raw, cfg, next), Ssh) == ObjAt(raw, Ssh)
    ensures TopFramed(raw, MarshalPreserving(raw, cfg, next))
  {
  }
}
