/** Removing and redacting secret-like fields in a peer's JSON tree
    (internal/config/ssh_peer_config.go). */
module Scrubs {
  import opened Wrappers
  import opened Jsons

  function LowerChar(c: char): char {
    if 'A' <= c <= 'Z' then c - 'A' + 'a' else c
  }

  function Lower(s: string): string {
    if s == "" then "" else [LowerChar(s[0])] + Lower(s[1..])
  }

  predicate Contains(s: string, part: string) {
    exists i | 0 <= i <= |s| - |part| :: OccursAt(s, part, i)
  }

  predicate OccursAt(s: string, part: string, i: int)
    requires 0 <= i <= |s| - |part|
  {
    s[i..i + |part|] == part
  }

  /** Name patterns that mark a field as secret. */
  predicate SecretLikeName(name: string) {
    var lower := Lower(name);
    lower != "proof" &&
    (|| lower == "private_key" || lower == "private_key_path" || lower == "sync_key_path"
     || lower == "accept_proof" || lower == "connect_proof"
     || lower == "shared_key" || lower == "sync_key"
     || Contains(lower, "shared_key") || Contains(lower, "secret") || Contains(lower, "token")
     || Contains(lower, "seed") || Contains(lower, "password") || Contains(lower, "credential")
     || Contains(lower, "private") || Contains(lower, "hmac") || Contains(lower, "nonce")
     || Contains(lower, "encrypted") || Contains(lower, "clipboard") || Contains(lower, "signed_frame"))
  }

  /** The same for known fields, by their JSON names: shared_key, sync_key,
      remote_secret_absence_proof and secret_write_command_spawned match. */
  predicate SecretLike(k: Key) {
    match k
    case SharedKey => true
    case SyncKey => true
    case AbsenceProof => true
    case SecretWriteCommandSpawned => true
    case Other(name) => SecretLikeName(name)
    case _ => false
  }

  // ---- the plain filter ----

  /** The tree without any secret-like key, at any depth. */
  function Scrubbed(j: Json): Json {
    match j
    case Obj(fields) => Obj(map k | k in fields && !SecretLike(k) :: Scrubbed(fields[k]))
    case Arr(items) => Arr(seq(|items|, i requires 0 <= i < |items| => Scrubbed(items[i])))
    case _ => j
  }

  /** The same for a peer's own fields, leaving the preserved keys alone. */
  function ScrubbedFields(fields: Fields, preserve: set<Key>): Fields {
    map k | k in fields && (k in preserve || !SecretLike(k)) ::
      if k in preserve then fields[k] else Scrubbed(fields[k])
  }

  /** Is there a secret-like key at any depth? */
  predicate HasSecret(j: Json) {
    match j
    case Obj(fields) => exists k :: k in fields && (SecretLike(k) || HasSecret(fields[k]))
    case Arr(items) => exists i :: 0 <= i < |items| && HasSecret(items[i])
    case _ => false
  }

  lemma {:induction false} ScrubbedHasNoSecret(j: Json)
    ensures !HasSecret(Scrubbed(j))
  {
    match j
    case Obj(fields) =>
      forall k | k in fields
        ensures !HasSecret(Scrubbed(fields[k]))
      {
        ScrubbedHasNoSecret(fields[k]);
      }
    case Arr(items) =>
      forall i | 0 <= i < |items|
        ensures !HasSecret(Scrubbed(items[i]))
      {
        ScrubbedHasNoSecret(items[i]);
      }
    case _ =>
  }

  /** Scrubbing changes a tree exactly when it holds a secret-like key. */
  lemma {:induction false} ScrubbedChangesSecrets(j: Json)
    ensures Scrubbed(j) == j <==> !HasSecret(j)
  {
    match j
    case Obj(fields) =>
      forall k | k in fields
        ensures Scrubbed(fields[k]) == fields[k] <==> !HasSecret(fields[k])
      {
        ScrubbedChangesSecrets(fields[k]);
      }
      var kept := map k | k in fields && !SecretLike(k) :: Scrubbed(fields[k]);
      if HasSecret(j) {
        var k :| k in fields && (SecretLike(k) || HasSecret(fields[k]));
        assert k !in kept || kept[k] != fields[k];
      } else {
        assert kept == fields;
      }
    case Arr(items) =>
      forall i | 0 <= i < |items|
        ensures Scrubbed(items[i]) == items[i] <==> !HasSecret(items[i])
      {
        ScrubbedChangesSecrets(items[i]);
      }
      if HasSecret(j) {
        var i :| 0 <= i < |items| && HasSecret(items[i]);
        assert Scrubbed(j).items[i] != items[i];
      } else {
        assert Scrubbed(j).items == items;
      }
    case _ =>
  }

  lemma ScrubIsIdempotent(j: Json)
    ensures Scrubbed(Scrubbed(j)) == Scrubbed(j)
  {
    ScrubbedHasNoSecret(j);
    ScrubbedChangesSecrets(Scrubbed(j));
  }

  // ---- the loops with the changed flag ----

  /** The in-place scrub of an object's fields: a value is replaced only when
      something under it changed. */
  method ScrubFields(raw: Fields, preserve: set<Key>) returns (out: Fields, changed: bool)
    ensures out == ScrubbedFields(raw, preserve)
    ensures changed <==> out != raw
    decreases Obj(raw), 0
  {
    ghost var plain := ScrubbedFields(raw, preserve);
    out, changed := raw, false;
    var todo := raw.Keys;
    while todo != {}
      invariant todo <= raw.Keys
      invariant forall k :: k in todo ==> k in out && out[k] == raw[k]
      invariant forall k :: k in raw && k !in todo ==> (k in out <==> k in plain) && (k in out ==> out[k] == plain[k])
      invariant out.Keys <= raw.Keys
      invariant !changed ==> out == raw
      invariant changed ==> exists k :: k in raw && k !in todo && (k !in out || out[k] != raw[k])
      decreases todo
    {
      var key :| key in todo;
      todo := todo - {key};
      ScrubbedAt(raw, preserve, key);
      if key in preserve {
        continue;
      }
      if SecretLike(key) {
        out := out - {key};
        changed := true;
        assert key !in out;
        continue;
      }
      var value, valueChanged := ScrubValue(raw[key]);
      if valueChanged {
        out := out[key := value];
        changed := true;
        assert out[key] != raw[key];
      }
    }
    assert plain.Keys <= raw.Keys;
    assert out == plain;
  }

  lemma ScrubbedAt(raw: Fields, preserve: set<Key>, k: Key)
    requires k in raw
    ensures k in ScrubbedFields(raw, preserve) <==> k in preserve || !SecretLike(k)
    ensures k in preserve ==> ScrubbedFields(raw, preserve)[k] == raw[k]
    ensures k !in preserve && !SecretLike(k) ==> ScrubbedFields(raw, preserve)[k] == Scrubbed(raw[k])
  {
  }

  method ScrubValue(raw: Json) returns (out: Json, changed: bool)
    ensures out == Scrubbed(raw)
    ensures changed <==> HasSecret(raw)
    ensures changed <==> out != raw
    decreases raw, 1
  {
    ScrubbedChangesSecrets(raw);
    match raw
    case Obj(fields) =>
      var scrubbed, fieldsChanged := ScrubFields(fields, {});
      assert ScrubbedFields(fields, {}) == Scrubbed(raw).fields;
      if !fieldsChanged {
        return raw, false;
      }
      return Obj(scrubbed), true;
    case Arr(items) =>
      var values := items;
      changed := false;
      for i := 0 to |items|
        invariant |values| == |items|
        invariant forall j :: 0 <= j < i ==> values[j] == Scrubbed(items[j])
        invariant forall j :: i <= j < |items| ==> values[j] == items[j]
        invariant changed <==> exists j :: 0 <= j < i && values[j] != items[j]
      {
        var value, nested := ScrubValue(items[i]);
        if nested {
          values := values[i := value];
          changed := true;
          assert values[i] != items[i];
        }
      }
      assert values == Scrubbed(raw).items;
      if !changed {
        assert values == items;
        return raw, false;
      }
      return Arr(values), true;
    case _ =>
      return raw, false;
  }

  // ---- redaction for responses ----

  predicate IsContainer(j: Json) {
    j.Obj? || j.Arr?
  }

  predicate SafeScalarField(k: Key) {
    k in {Id, Enabled, Accept, Connect, Persistent, OnDemand, SshHost, SshUser, SshPort, InstallPath, GatewayPath, MigrationState}
  }

  predicate IsProofField(k: Key) {
    k.Proof? || (k.Other? && Lower(k.name) == "proof")
  }

  /** None: the field is left out of the response. */
  function RedactedField(k: Key, value: Json, top: bool): Option<Json>
    decreases value, 2
  {
    if SecretLike(k) then None
    else if IsProofField(k) then RedactedProof(value)
    else if top && !SafeScalarField(k) && !IsContainer(value) then None
    else Some(RedactedValue(value))
  }

  function RedactedValue(value: Json): Json
    decreases value, 0
  {
    match value
    case Obj(fields) =>
      Obj(map k | k in fields && RedactedField(k, fields[k], false).Some? :: RedactedField(k, fields[k], false).value)
    case Arr(items) => Arr(RedactedItems(items))
    case _ => value
  }

  function RedactedItems(items: seq<Json>): (r: seq<Json>)
    ensures |r| == |items| && forall i :: 0 <= i < |r| ==> r[i] == RedactedValue(items[i])
    decreases items
  {
    if items == [] then [] else [RedactedValue(items[0])] + RedactedItems(items[1..])
  }

  /** Scalars are dropped where a proof is expected, also inside a list. */
  function RedactedProof(value: Json): Option<Json>
    decreases value, 1
  {
    match value
    case Obj(_) => Some(RedactedValue(value))
    case Arr(items) => Some(Arr(RedactedContainers(items)))
    case _ => None
  }

  function RedactedContainers(items: seq<Json>): seq<Json>
    decreases items
  {
    if items == [] then []
    else if IsContainer(items[0]) then [RedactedValue(items[0])] + RedactedContainers(items[1..])
    else RedactedContainers(items[1..])
  }

  function RedactedPeer(raw: Fields): Fields {
    map k | k in raw && RedactedField(k, raw[k], true).Some? :: RedactedField(k, raw[k], true).value
  }

  lemma {:induction false} RedactedValueHasNoSecret(value: Json)
    ensures !HasSecret(RedactedValue(value))
    decreases value, 0
  {
    match value
    case Obj(fields) =>
      forall k | k in fields && RedactedField(k, fields[k], false).Some?
        ensures !SecretLike(k) && !HasSecret(RedactedField(k, fields[k], false).value)
      {
        RedactedFieldHasNoSecret(k, fields[k], false);
      }
    case Arr(items) =>
      forall i | 0 <= i < |items|
        ensures !HasSecret(RedactedItems(items)[i])
      {
        RedactedValueHasNoSecret(items[i]);
      }
    case _ =>
  }

  lemma {:induction false} RedactedFieldHasNoSecret(k: Key, value: Json, top: bool)
    requires RedactedField(k, value, top).Some?
    ensures !SecretLike(k) && !HasSecret(RedactedField(k, value, top).value)
    decreases value, 1
  {
    if IsProofField(k) && value.Arr? {
      RedactedContainersHaveNoSecret(value.items);
      assert RedactedField(k, value, top).value == Arr(RedactedContainers(value.items));
    } else {
      RedactedValueHasNoSecret(value);
    }
  }

  lemma {:induction false} RedactedContainersHaveNoSecret(items: seq<Json>)
    ensures forall i :: 0 <= i < |RedactedContainers(items)| ==> !HasSecret(RedactedContainers(items)[i])
    decreases items
  {
    if items != [] {
      RedactedValueHasNoSecret(items[0]);
      RedactedContainersHaveNoSecret(items[1..]);
    }
  }

  /** A response never shows a secret-like key, at any depth, whatever the peer
      object holds. */
  lemma RedactionHidesSecrets(raw: Fields)
    ensures !HasSecret(Obj(RedactedPeer(raw)))
  {
    forall k | k in raw && RedactedField(k, raw[k], true).Some?
      ensures !SecretLike(k) && !HasSecret(RedactedField(k, raw[k], true).value)
    {
      RedactedFieldHasNoSecret(k, raw[k], true);
    }
  }
}
