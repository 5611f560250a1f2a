/** One managed authorized_keys line: printing and parsing it
    (internal/sshprovision/authorized_keys.go). */
module AuthorizedKeyLines {
  import opened Wrappers
  import opened Text

  const MARKER: string := "clipfan-sync:"
  const KEY_TYPE: string := "ssh-ed25519"
  const NO_AGENT: string := "no-agent-forwarding,"
  const NO_X11: string := "no-X11-forwarding,"
  const NO_PORT: string := "no-port-forwarding,"
  const NO_PTY: string := "no-pty,"
  const NO_RC: string := "no-user-rc,"
  const OPTIONS: string := NO_AGENT + (NO_X11 + (NO_PORT + (NO_PTY + NO_RC)))
  const COMMAND: string := "command=\""

  datatype Entry = Entry(peerID: string, keyID: string, gatewayPath: string, publicKey: string)

  datatype Metadata = Metadata(peerID: string, keyID: string)

  // ---- identifiers ----

  predicate Plain(c: char) {
    'A' <= c <= 'Z' || 'a' <= c <= 'z' || '0' <= c <= '9' || c == '.' || c == '_' || c == '-'
  }

  predicate HostIDOk(s: string) {
    1 <= |s| <= 63 && s[0] != '-' && forall i :: 0 <= i < |s| ==> Plain(s[i])
  }

  predicate KeyIDOk(s: string) {
    8 <= |s| <= 64 && forall i :: 0 <= i < |s| ==> Plain(s[i])
  }

  /** Path cleaning and base64 decoding are given; only the characters that pass
      matter here. */
  datatype Rules = Rules(pathOk: string -> bool, keyTypeOf: string -> Option<string>) {
    ghost predicate WellFormed() {
      && (forall p :: pathOk(p) ==> p != "" && forall i :: 0 <= i < |p| ==> Plain(p[i]) || p[i] == '/' || p[i] == '@' || p[i] == '+')
      && (forall k :: keyTypeOf(k).Some? ==> k != "" && forall i :: 0 <= i < |k| ==> Plain(k[i]) || k[i] == '/' || k[i] == '+' || k[i] == '=')
    }
  }

  predicate EntryOk(rules: Rules, e: Entry) {
    HostIDOk(e.peerID) && KeyIDOk(e.keyID) && rules.pathOk(e.gatewayPath) && rules.keyTypeOf(e.publicKey) == Some(KEY_TYPE)
  }

  // ---- printing ----

  const SUBCOMMAND: string := "ssh-gateway"
  const PEER_FLAG: string := "--authorized-peer"
  const KEY_FLAG: string := "--authorized-key-id"

  function Suffix(peerID: string, keyID: string): string {
    " " + (SUBCOMMAND + " " + (PEER_FLAG + " " + (peerID + " " + (KEY_FLAG + " " + keyID))))
  }

  function ForcedCommand(e: Entry): string {
    e.gatewayPath + Suffix(e.peerID, e.keyID)
  }

  /** Backslashes and quotes are escaped. */
  function Escape(s: string): string {
    if s == "" then ""
    else (if s[0] == '\\' || s[0] == '"' then ['\\', s[0]] else [s[0]]) + Escape(s[1..])
  }

  function MarkerOf(e: Entry): string {
    MARKER + e.peerID + ":" + e.keyID
  }

  /** What follows the quoted command. */
  function Trailer(e: Entry): string {
    " " + (KEY_TYPE + " " + (e.publicKey + " " + MarkerOf(e)))
  }

  function Line(e: Entry): string {
    OPTIONS + COMMAND + Escape(ForcedCommand(e)) + "\"" + Trailer(e)
  }

  // ---- parsing ----

  function Word(s: string): string {
    if s == "" || IsSpace(s[0]) then "" else [s[0]] + Word(s[1..])
  }

  /** The words of a line, separated by white space. */
  function Fields(s: string): seq<string>
    decreases |s|
  {
    if s == "" then []
    else if IsSpace(s[0]) then Fields(s[1..])
    else
      WordLength(s);
      [Word(s)] + Fields(s[|Word(s)|..])
  }

  lemma {:induction false} WordLength(s: string)
    ensures |Word(s)| <= |s| && (s != "" && !IsSpace(s[0]) ==> |Word(s)| > 0)
  {
    if s != "" && !IsSpace(s[0]) {
      WordLength(s[1..]);
    }
  }

  /** The quoted value, with escapes undone, up to the closing quote. */
  function ReadQuoted(s: string, escaped: bool): Option<string> {
    if s == "" then None
    else if escaped then Prepend(s[0], ReadQuoted(s[1..], false))
    else if s[0] == '\\' then ReadQuoted(s[1..], true)
    else if s[0] == '"' then Some("")
    else Prepend(s[0], ReadQuoted(s[1..], false))
  }

  function Prepend(c: char, rest: Option<string>): Option<string> {
    if rest.Some? then Some([c] + rest.value) else None
  }

  /** The value of the first command option that reads. */
  function CommandIn(line: string): Option<string> {
    if line == "" then None
    else if HasPrefix(line, COMMAND) && ReadQuoted(line[|COMMAND|..], false).Some? then ReadQuoted(line[|COMMAND|..], false)
    else CommandIn(line[1..])
  }

  function FirstMarker(fields: seq<string>): Option<nat> {
    if fields == [] then None
    else if HasPrefix(fields[0], MARKER) then Some(0)
    else match FirstMarker(fields[1..]) case None => None case Some(i) => Some(i + 1)
  }

  lemma {:induction false} FirstMarkerAt(fields: seq<string>, i: nat)
    requires i < |fields| && HasPrefix(fields[i], MARKER) && forall j :: 0 <= j < i ==> !HasPrefix(fields[j], MARKER)
    ensures FirstMarker(fields) == Some(i)
  {
    if i > 0 {
      assert !HasPrefix(fields[0], MARKER);
      FirstMarkerAt(fields[1..], i - 1);
    }
  }

  lemma {:induction false} FirstMarkerBound(fields: seq<string>)
    ensures FirstMarker(fields).Some? ==> FirstMarker(fields).value < |fields|
  {
    if fields != [] {
      FirstMarkerBound(fields[1..]);
    }
  }

  predicate HasColon(s: string) {
    exists i :: 0 <= i < |s| && s[i] == ':'
  }

  function ParseMarker(marker: string): Result<Metadata> {
    var value := TrimPrefix(marker, MARKER);
    if !HasColon(value) then Err("malformed managed marker") else
    var peerID := Before(value, ':');
    BeforeBound(value, ':');
    var keyID := value[|peerID| + 1..];
    if !HostIDOk(peerID) then Err("invalid managed peer id")
    else if !KeyIDOk(keyID) then Err("invalid managed key id")
    else Ok(Metadata(peerID, keyID))
  }

  lemma {:induction false} BeforeBound(s: string, c: char)
    requires exists i :: 0 <= i < |s| && s[i] == c
    ensures |Before(s, c)| < |s|
  {
    if s[0] != c {
      var i :| 0 <= i < |s| && s[i] == c;
      assert s[1..][i - 1] == c;
      BeforeBound(s[1..], c);
    }
  }

  predicate ManagedLineOk(rules: Rules, line: string, fields: seq<string>, at: nat, m: Metadata)
    requires at < |fields|
  {
    && at >= 2 && fields[at - 2] == KEY_TYPE
    && rules.keyTypeOf(fields[at - 1]) == Some(KEY_TYPE)
    && CommandIn(line).Some?
    && HasSuffix(CommandIn(line).value, Suffix(m.peerID, m.keyID))
    && rules.pathOk(TrimSuffix(CommandIn(line).value, Suffix(m.peerID, m.keyID)))
  }

  /** A line without a marker is not managed; one with a marker must be in order. */
  function ParseMetadata(rules: Rules, line: string): Result<Option<Metadata>> {
    var fields := Fields(line);
    var at := FirstMarker(fields);
    if at.None? then Ok(None) else
    FirstMarkerBound(fields);
    var m :- ParseMarker(fields[at.value]);
    if !ManagedLineOk(rules, line, fields, at.value, m) then Err("malformed managed key line") else Ok(Some(m))
  }

  // ---- the round trip ----

  function EscapedChar(c: char): string {
    if c == '\\' || c == '"' then ['\\', c] else [c]
  }

  lemma EscapeFirst(s: string)
    requires s != ""
    ensures Escape(s) == EscapedChar(s[0]) + Escape(s[1..])
  {
  }

  lemma QuotedStep(c: char, tail: string, value: string)
    requires ReadQuoted(tail, false) == Some(value)
    ensures ReadQuoted(EscapedChar(c) + tail, false) == Some([c] + value)
  {
    assert ([c] + tail)[1..] == tail;
    assert (['\\', c] + tail)[1..] == [c] + tail;
  }

  /** Unescaping what was escaped gives it back, up to the closing quote. */
  lemma {:induction false} QuotedRoundTrip(s: string, rest: string)
    ensures ReadQuoted(Escape(s) + "\"" + rest, false) == Some(s)
  {
    if s == "" {
      assert ("" + "\"" + rest)[0] == '"';
    } else {
      var tail := Escape(s[1..]) + "\"" + rest;
      QuotedRoundTrip(s[1..], rest);
      QuotedStep(s[0], tail, s[1..]);
      EscapeFirst(s);
      var first := EscapedChar(s[0]);
      assert Escape(s) + "\"" + rest == first + tail;
      assert [s[0]] + s[1..] == s;
    }
  }

  lemma {:induction false} WordOf(w: string, rest: string)
    requires forall i :: 0 <= i < |w| ==> !IsSpace(w[i])
    requires rest == "" || IsSpace(rest[0])
    ensures Word(w + rest) == w
  {
    if w == "" {
      assert w + rest == rest;
    } else {
      assert (w + rest)[1..] == w[1..] + rest;
      WordOf(w[1..], rest);
    }
  }

  function Spaced(words: seq<string>): string {
    if words == [] then "" else if |words| == 1 then words[0] else words[0] + " " + Spaced(words[1..])
  }

  /** A word: not empty, no white space. */
  predicate IsWord(w: string) {
    w != "" && forall j :: 0 <= j < |w| ==> !IsSpace(w[j])
  }

  lemma FieldsOfWord(w: string)
    requires IsWord(w)
    ensures Fields(w) == [w]
  {
    assert w + "" == w;
    WordOf(w, "");
    assert w[|w|..] == "";
  }

  lemma FieldsOfWordThen(w: string, rest: string)
    requires IsWord(w)
    ensures Fields(w + " " + rest) == [w] + Fields(rest)
  {
    var tail := " " + rest;
    var all := w + tail;
    assert w + " " + rest == all;
    WordOf(w, tail);
    assert all[|w|..] == tail;
    assert tail[1..] == rest;
    assert Fields(tail) == Fields(rest);
    assert all != "" && !IsSpace(all[0]);
  }

  lemma {:induction false} FieldsOfSpaced(words: seq<string>)
    requires forall i :: 0 <= i < |words| ==> IsWord(words[i])
    ensures Fields(Spaced(words)) == words
  {
    if |words| == 1 {
      FieldsOfWord(words[0]);
      assert words == [words[0]];
    } else if |words| > 1 {
      var tail := words[1..];
      forall i | 0 <= i < |tail|
        ensures IsWord(tail[i])
      {
        assert tail[i] == words[i + 1];
      }
      FieldsOfSpaced(tail);
      FieldsOfWordThen(words[0], Spaced(tail));
      assert words == [words[0]] + tail;
    }
  }

  predicate Harmless(s: string) {
    forall i :: 0 <= i < |s| ==> s[i] != '\\' && s[i] != '"'
  }

  lemma {:induction false} EscapeHarmless(s: string)
    requires Harmless(s)
    ensures Escape(s) == s
  {
    if s != "" {
      EscapeHarmless(s[1..]);
      assert s == [s[0]] + s[1..];
    }
  }

  lemma HarmlessConcat(a: string, b: string)
    requires Harmless(a) && Harmless(b)
    ensures Harmless(a + b)
  {
  }

  lemma SpacedHarmless(a: string, b: string)
    requires Harmless(a) && Harmless(b)
    ensures Harmless(a + " " + b)
  {
  }

  lemma FlagsAreHarmless()
    ensures Harmless(SUBCOMMAND) && Harmless(PEER_FLAG) && Harmless(KEY_FLAG)
  {
  }

  lemma CommandIsHarmless(rules: Rules, e: Entry)
    requires rules.WellFormed() && EntryOk(rules, e)
    ensures Harmless(ForcedCommand(e))
  {
    FlagsAreHarmless();
    SuffixIsHarmless(SUBCOMMAND, PEER_FLAG, e.peerID, KEY_FLAG, e.keyID);
    HarmlessConcat(e.gatewayPath, Suffix(e.peerID, e.keyID));
  }

  lemma SuffixIsHarmless(sub: string, peerFlag: string, peerID: string, keyFlag: string, keyID: string)
    requires Harmless(sub) && Harmless(peerFlag) && Harmless(peerID) && Harmless(keyFlag) && Harmless(keyID)
    ensures Harmless(" " + (sub + " " + (peerFlag + " " + (peerID + " " + (keyFlag + " " + keyID)))))
  {
    var key := keyFlag + " " + keyID;
    var peer := peerID + " " + key;
    var flag := peerFlag + " " + peer;
    SpacedHarmless(keyFlag, keyID);
    SpacedHarmless(peerID, key);
    SpacedHarmless(peerFlag, peer);
    SpacedHarmless(sub, flag);
    SpacedHarmless("", sub + " " + flag);
    assert "" + " " + (sub + " " + flag) == " " + (sub + " " + flag);
  }

  /** The words of a printed line. */
  function WordsOf(e: Entry): seq<string> {
    [OPTIONS + COMMAND + e.gatewayPath, SUBCOMMAND, PEER_FLAG, e.peerID, KEY_FLAG, e.keyID + "\"", KEY_TYPE, e.publicKey, MarkerOf(e)]
  }

  lemma SpacedCons(a: string, rest: seq<string>)
    requires rest != []
    ensures Spaced([a] + rest) == a + " " + Spaced(rest)
  {
    assert ([a] + rest)[1..] == rest;
  }

  lemma SpacedTail(e: Entry)
    ensures Spaced(WordsOf(e)[5..]) == e.keyID + "\"" + (" " + (KEY_TYPE + " " + (e.publicKey + " " + MarkerOf(e))))
  {
    var words := WordsOf(e);
    SpacedCons(words[7], [words[8]]);
    SpacedCons(words[6], [words[7]] + [words[8]]);
    SpacedCons(words[5], [words[6]] + ([words[7]] + [words[8]]));
    assert words[5..] == [words[5]] + ([words[6]] + ([words[7]] + [words[8]]));
  }

  /** The printed pieces regrouped at the spaces. */
  lemma Regroup(head: string, gateway: string, sub: string, peerFlag: string, peer: string, keyFlag: string, key: string, trailer: string)
    ensures head + (gateway + (" " + (sub + " " + (peerFlag + " " + (peer + " " + (keyFlag + " " + key)))))) + "\"" + trailer
         == head + gateway + " " + (sub + " " + (peerFlag + " " + (peer + " " + (keyFlag + " " + (key + "\"" + trailer)))))
  {
    var k := keyFlag + " " + key;
    var p := peer + " " + k;
    var f := peerFlag + " " + p;
    assert k + "\"" + trailer == keyFlag + " " + (key + "\"" + trailer);
    assert p + "\"" + trailer == peer + " " + (k + "\"" + trailer);
    assert f + "\"" + trailer == peerFlag + " " + (p + "\"" + trailer);
    var all := sub + " " + f;
    assert all + "\"" + trailer == sub + " " + (f + "\"" + trailer);
    assert head + (gateway + (" " + all)) + "\"" + trailer == head + gateway + " " + (all + "\"" + trailer);
  }

  lemma SpacedHead(e: Entry, tail: string)
    requires tail == Spaced(WordsOf(e)[5..])
    ensures Spaced(WordsOf(e)) ==
      OPTIONS + COMMAND + e.gatewayPath + " " + (SUBCOMMAND + " " + (PEER_FLAG + " " + (e.peerID + " " + (KEY_FLAG + " " + tail))))
  {
    var words := WordsOf(e);
    assert Spaced(words[4..]) == words[4] + " " + tail by { assert words[4..][1..] == words[5..]; }
    assert Spaced(words[3..]) == words[3] + " " + Spaced(words[4..]) by { assert words[3..][1..] == words[4..]; }
    assert Spaced(words[2..]) == words[2] + " " + Spaced(words[3..]) by { assert words[2..][1..] == words[3..]; }
    assert Spaced(words[1..]) == words[1] + " " + Spaced(words[2..]) by { assert words[1..][1..] == words[2..]; }
  }

  /** A printed line is its words, spaced. */
  lemma LineIsSpaced(rules: Rules, e: Entry)
    requires rules.WellFormed() && EntryOk(rules, e)
    ensures Line(e) == Spaced(WordsOf(e))
  {
    CommandIsHarmless(rules, e);
    EscapeHarmless(ForcedCommand(e));
    Regroup(OPTIONS + COMMAND, e.gatewayPath, SUBCOMMAND, PEER_FLAG, e.peerID, KEY_FLAG, e.keyID, Trailer(e));
    SpacedTail(e);
    SpacedHead(e, e.keyID + "\"" + Trailer(e));
  }

  /** The option could start at i. */
  predicate CommandStarts(s: string, i: nat)
    requires i < |s|
  {
    s[i] == 'c' && (i + 1 == |s| || s[i + 1] == 'o')
  }

  predicate NoCommandIn(s: string) {
    forall i :: 0 <= i < |s| ==> !CommandStarts(s, i)
  }

  lemma NoCommandConcat(a: string, b: string)
    requires NoCommandIn(a) && NoCommandIn(b)
    ensures NoCommandIn(a + b)
  {
    forall i | 0 <= i < |a + b|
      ensures !CommandStarts(a + b, i)
    {
      if i < |a| {
        assert !CommandStarts(a, i);
      } else {
        assert !CommandStarts(b, i - |a|);
      }
    }
  }

  lemma OptionsHaveNoCommand()
    ensures NoCommandIn(OPTIONS)
  {
    NoCommandConcat(NO_PTY, NO_RC);
    NoCommandConcat(NO_PORT, NO_PTY + NO_RC);
    NoCommandConcat(NO_X11, NO_PORT + (NO_PTY + NO_RC));
    NoCommandConcat(NO_AGENT, NO_X11 + (NO_PORT + (NO_PTY + NO_RC)));
  }

  lemma {:induction false} SkipTo(s: string, t: string)
    requires NoCommandIn(s)
    ensures CommandIn(s + t) == CommandIn(t)
  {
    if s == "" {
      assert s + t == t;
    } else {
      var all := s + t;
      assert !CommandStarts(s, 0);
      assert COMMAND[0] == 'c' && COMMAND[1] == 'o';
      NotPrefix(all, COMMAND, if s[0] == 'c' then 1 else 0);
      assert all[1..] == s[1..] + t;
      forall i | 0 <= i < |s| - 1
        ensures !CommandStarts(s[1..], i)
      {
        assert !CommandStarts(s, i + 1);
      }
      SkipTo(s[1..], t);
    }
  }

  lemma CommandOfLine(e: Entry)
    ensures CommandIn(Line(e)) == Some(ForcedCommand(e))
  {
    var rest := Escape(ForcedCommand(e)) + "\"" + Trailer(e);
    assert Line(e) == OPTIONS + (COMMAND + rest);
    OptionsHaveNoCommand();
    SkipTo(OPTIONS, COMMAND + rest);
    assert HasPrefix(COMMAND + rest, COMMAND) && (COMMAND + rest)[|COMMAND|..] == rest;
    QuotedRoundTrip(ForcedCommand(e), Trailer(e));
  }

  predicate NoColonOrSpace(s: string) {
    forall i :: 0 <= i < |s| ==> !IsSpace(s[i]) && s[i] != ':'
  }

  lemma WordConcat(a: string, b: string)
    requires NoColonOrSpace(a) && NoColonOrSpace(b)
    ensures NoColonOrSpace(a + b)
  {
  }

  lemma OptionsAreWords()
    ensures NoColonOrSpace(OPTIONS)
  {
    WordConcat(NO_PTY, NO_RC);
    WordConcat(NO_PORT, NO_PTY + NO_RC);
    WordConcat(NO_X11, NO_PORT + (NO_PTY + NO_RC));
    WordConcat(NO_AGENT, NO_X11 + (NO_PORT + (NO_PTY + NO_RC)));
  }

  lemma ConstantsAreWords()
    ensures NoColonOrSpace(COMMAND) && NoColonOrSpace(SUBCOMMAND) && NoColonOrSpace(PEER_FLAG)
    ensures NoColonOrSpace(KEY_FLAG) && NoColonOrSpace(KEY_TYPE)
  {
  }

  lemma MarkerIsWord(e: Entry)
    requires HostIDOk(e.peerID) && KeyIDOk(e.keyID)
    ensures IsWord(MarkerOf(e))
  {
  }

  lemma FirstWordIsWord(gatewayPath: string)
    requires NoColonOrSpace(gatewayPath)
    ensures NoColonOrSpace(OPTIONS + COMMAND + gatewayPath) && OPTIONS + COMMAND + gatewayPath != ""
  {
    OptionsAreWords();
    ConstantsAreWords();
    WordConcat(OPTIONS, COMMAND);
    WordConcat(OPTIONS + COMMAND, gatewayPath);
  }

  lemma LastWordsAreWords(rules: Rules, e: Entry)
    requires rules.WellFormed() && EntryOk(rules, e)
    ensures NoColonOrSpace(e.peerID) && NoColonOrSpace(e.keyID + "\"") && NoColonOrSpace(e.publicKey) && NoColonOrSpace(e.gatewayPath)
    ensures e.peerID != "" && e.publicKey != ""
  {
  }

  /** What makes a line of nine words parse as the entry: no word has white
      space, only the marker has a colon. */
  ghost predicate Ready(words: seq<string>, e: Entry) {
    && |words| == 9
    && (forall i :: 0 <= i < 8 ==> words[i] != "" && NoColonOrSpace(words[i]))
    && words[6] == KEY_TYPE && words[7] == e.publicKey && words[8] == MarkerOf(e)
  }

  lemma NineWords(words: seq<string>, a: string, b: string, c: string, d: string, f: string, g: string, h: string, e: Entry)
    requires words == [a, b, c, d, f, g, h, e.publicKey, MarkerOf(e)] && h == KEY_TYPE
    requires NoColonOrSpace(a) && NoColonOrSpace(b) && NoColonOrSpace(c) && NoColonOrSpace(d)
    requires NoColonOrSpace(f) && NoColonOrSpace(g) && NoColonOrSpace(h) && NoColonOrSpace(e.publicKey)
    requires a != "" && b != "" && c != "" && d != "" && f != "" && g != "" && h != "" && e.publicKey != ""
    ensures Ready(words, e)
  {
  }

  lemma WordsAreReady(rules: Rules, e: Entry)
    requires rules.WellFormed() && EntryOk(rules, e)
    ensures Ready(WordsOf(e), e)
  {
    LastWordsAreWords(rules, e);
    FirstWordIsWord(e.gatewayPath);
    ConstantsAreWords();
    NineWords(WordsOf(e), OPTIONS + COMMAND + e.gatewayPath, SUBCOMMAND, PEER_FLAG, e.peerID, KEY_FLAG, e.keyID + "\"", KEY_TYPE, e);
  }

  lemma NoColonNoMarker(s: string)
    requires NoColonOrSpace(s)
    ensures !HasPrefix(s, MARKER)
  {
    assert MARKER[12] == ':';
    NotPrefix(s, MARKER, 12);
  }

  lemma {:induction false} BeforeIs(a: string, c: char, rest: string)
    requires forall i :: 0 <= i < |a| ==> a[i] != c
    ensures Before(a + [c] + rest, c) == a
  {
    var all := a + [c] + rest;
    if a != "" {
      assert all[1..] == a[1..] + [c] + rest;
      BeforeIs(a[1..], c, rest);
    }
  }

  lemma MarkerParses(e: Entry)
    requires HostIDOk(e.peerID) && KeyIDOk(e.keyID)
    ensures ParseMarker(MarkerOf(e)) == Ok(Metadata(e.peerID, e.keyID))
  {
    var value := e.peerID + [':'] + e.keyID;
    assert MarkerOf(e) == MARKER + value;
    assert TrimPrefix(MarkerOf(e), MARKER) == value;
    assert value[|e.peerID|] == ':';
    BeforeIs(e.peerID, ':', e.keyID);
    assert value[|e.peerID| + 1..] == e.keyID;
  }

  /** The marker is the ninth word. */
  lemma MarkerIsNinth(words: seq<string>)
    requires |words| == 9 && forall i :: 0 <= i < 8 ==> words[i] != "" && NoColonOrSpace(words[i])
    requires IsWord(words[8]) && HasPrefix(words[8], MARKER)
    ensures Fields(Spaced(words)) == words && FirstMarker(words) == Some(8)
  {
    forall i | 0 <= i < 9
      ensures IsWord(words[i])
    {
    }
    FieldsOfSpaced(words);
    forall i | 0 <= i < 8
      ensures !HasPrefix(words[i], MARKER)
    {
      NoColonNoMarker(words[i]);
    }
    FirstMarkerAt(words, 8);
  }

  lemma CommandSplits(e: Entry)
    ensures HasSuffix(ForcedCommand(e), Suffix(e.peerID, e.keyID))
    ensures TrimSuffix(ForcedCommand(e), Suffix(e.peerID, e.keyID)) == e.gatewayPath
  {
  }

  lemma ParsedFrom(rules: Rules, line: string, words: seq<string>, e: Entry)
    requires EntryOk(rules, e) && Fields(line) == words && |words| == 9 && FirstMarker(words) == Some(8)
    requires words[6] == KEY_TYPE && words[7] == e.publicKey && ParseMarker(words[8]) == Ok(Metadata(e.peerID, e.keyID))
    requires CommandIn(line) == Some(ForcedCommand(e))
    ensures ParseMetadata(rules, line) == Ok(Some(Metadata(e.peerID, e.keyID)))
  {
    CommandSplits(e);
  }

  lemma ReadyParses(rules: Rules, line: string, words: seq<string>, e: Entry)
    requires EntryOk(rules, e) && line == Spaced(words) && Ready(words, e)
    requires CommandIn(line) == Some(ForcedCommand(e))
    ensures ParseMetadata(rules, line) == Ok(Some(Metadata(e.peerID, e.keyID)))
  {
    MarkerIsWord(e);
    MarkerParses(e);
    MarkerIsNinth(words);
    ParsedFrom(rules, line, words, e);
  }

  /** Printing a valid entry and parsing it gives its peer and key back. */
  lemma PrintedLineParses(rules: Rules, e: Entry)
    requires rules.WellFormed() && EntryOk(rules, e)
    ensures ParseMetadata(rules, Line(e)) == Ok(Some(Metadata(e.peerID, e.keyID)))
  {
    LineIsSpaced(rules, e);
    WordsAreReady(rules, e);
    CommandOfLine(e);
    ReadyParses(rules, Line(e), WordsOf(e), e);
  }
}
