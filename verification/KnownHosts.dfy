/** Pinned host keys: the glob matcher, verification and upsert
    (internal/sshprovision/known_hosts.go). */
module KnownHosts {
  import opened Wrappers
  import opened Text
  import opened AuthorizedKeyLines

  // ---- globs ----

  /** The value is the concatenation of one piece for each glob character: '*'
      stands for anything, '?' for one character, others for themselves. */
  ghost predicate Means(glob: string, value: string) {
    exists pieces: seq<string> :: Divides(glob, value, pieces)
  }

  predicate Divides(glob: string, value: string, pieces: seq<string>) {
    && |pieces| == |glob| && Flat(pieces) == value
    && forall i :: 0 <= i < |glob| ==> Stands(glob[i], pieces[i])
  }

  predicate Stands(g: char, piece: string) {
    if g == '*' then true else if g == '?' then |piece| == 1 else piece == [g]
  }

  function Flat(pieces: seq<string>): string {
    if pieces == [] then "" else pieces[0] + Flat(pieces[1..])
  }

  /** The recursion that the table unfolds. */
  predicate Matches(glob: string, value: string)
    decreases |glob| + |value|
  {
    if glob == "" then value == ""
    else if glob[0] == '*' then Matches(glob[1..], value) || (value != "" && Matches(glob, value[1..]))
    else if glob[0] == '?' then value != "" && Matches(glob[1..], value[1..])
    else value != "" && glob[0] == value[0] && Matches(glob[1..], value[1..])
  }

  lemma DividesCons(glob: string, value: string, piece: string, rest: seq<string>)
    requires glob != "" && |piece| <= |value| && value[..|piece|] == piece
    requires Stands(glob[0], piece) && Divides(glob[1..], value[|piece|..], rest)
    ensures Means(glob, value)
  {
    var pieces := [piece] + rest;
    assert pieces[1..] == rest;
    assert Flat(pieces) == value;
    forall i | 0 <= i < |glob|
      ensures Stands(glob[i], pieces[i])
    {
      if i > 0 {
        assert Stands(glob[1..][i - 1], rest[i - 1]);
      }
    }
    assert Divides(glob, value, pieces);
  }

  /** Giving the star one more character. */
  lemma DividesStar(glob: string, value: string, pieces: seq<string>)
    requires glob != "" && glob[0] == '*' && value != "" && Divides(glob, value[1..], pieces)
    ensures Means(glob, value)
  {
    var piece := [value[0]] + pieces[0];
    var rest := pieces[1..];
    assert value[1..] == pieces[0] + Flat(rest);
    assert value == [value[0]] + value[1..];
    assert value[|piece|..] == Flat(rest);
    forall i | 0 <= i < |glob[1..]|
      ensures Stands(glob[1..][i], rest[i])
    {
      assert Stands(glob[i + 1], pieces[i + 1]);
    }
    DividesCons(glob, value, piece, rest);
  }

  lemma {:induction false} MatchesMeans(glob: string, value: string)
    requires Matches(glob, value)
    ensures Means(glob, value)
    decreases |glob| + |value|
  {
    if glob == "" {
      assert Divides(glob, value, []);
    } else if glob[0] == '*' {
      if Matches(glob[1..], value) {
        MatchesMeans(glob[1..], value);
        var rest :| Divides(glob[1..], value, rest);
        assert value[0..] == value;
        DividesCons(glob, value, "", rest);
      } else {
        MatchesMeans(glob, value[1..]);
        var pieces :| Divides(glob, value[1..], pieces);
        DividesStar(glob, value, pieces);
      }
    } else {
      MatchesMeans(glob[1..], value[1..]);
      var rest :| Divides(glob[1..], value[1..], rest);
      DividesCons(glob, value, [value[0]], rest);
    }
  }

  lemma {:induction false} MeansMatches(glob: string, value: string, pieces: seq<string>)
    requires Divides(glob, value, pieces)
    ensures Matches(glob, value)
    decreases |glob| + |value|
  {
    if glob != "" {
      var piece, rest := pieces[0], pieces[1..];
      assert value == piece + Flat(rest);
      assert Stands(glob[0], piece);
      forall i | 0 <= i < |glob[1..]|
        ensures Stands(glob[1..][i], rest[i])
      {
        assert Stands(glob[i + 1], pieces[i + 1]);
      }
      if piece == "" {
        assert value == Flat(rest);
        MeansMatches(glob[1..], value, rest);
      } else if glob[0] == '*' {
        var shorter := [piece[1..]] + rest;
        assert shorter[1..] == rest;
        assert value[1..] == piece[1..] + Flat(rest);
        assert Divides(glob, value[1..], shorter);
        MeansMatches(glob, value[1..], shorter);
      } else {
        assert |piece| == 1 && value[1..] == Flat(rest);
        MeansMatches(glob[1..], value[1..], rest);
      }
    }
  }

  /** The table, filled from the ends of the glob and of the value: its first
      entry is the meaning of the glob. */
  method GlobMatches(glob: string, value: string) returns (r: bool)
    ensures r <==> Means(glob, value)
  {
    var n, m := |glob|, |value|;
    var table := new bool[n + 1, m + 1]((i, j) => i == n && j == m);
    forall j | 0 <= j <= m
      ensures table[n, j] == Matches(glob[n..], value[j..])
    {
    }
    var i := n;
    while i > 0
      invariant 0 <= i <= n
      invariant forall k, j :: i <= k <= n && 0 <= j <= m ==> table[k, j] == Matches(glob[k..], value[j..])
    {
      i := i - 1;
      FillRow(glob, value, table, i);
    }
    r := table[0, 0];
    assert glob[0..] == glob && value[0..] == value;
    if r {
      MatchesMeans(glob, value);
    } else if Means(glob, value) {
      var pieces :| Divides(glob, value, pieces);
      MeansMatches(glob, value, pieces);
    }
  }

  method FillRow(glob: string, value: string, table: array2<bool>, i: nat)
    requires i < |glob| && table.Length0 == |glob| + 1 && table.Length1 == |value| + 1
    requires forall j :: 0 <= j <= |value| ==> table[i + 1, j] == Matches(glob[i + 1..], value[j..])
    modifies table
    ensures forall k, j :: i < k <= |glob| && 0 <= j <= |value| ==> table[k, j] == old(table[k, j])
    ensures forall j :: 0 <= j <= |value| ==> table[i, j] == Matches(glob[i..], value[j..])
  {
    var j := |value| + 1;
    while j > 0
      invariant 0 <= j <= |value| + 1
      invariant forall k, l :: i < k <= |glob| && 0 <= l <= |value| ==> table[k, l] == old(table[k, l])
      invariant forall l :: j <= l <= |value| ==> table[i, l] == Matches(glob[i..], value[l..])
    {
      j := j - 1;
      assert glob[i..][1..] == glob[i + 1..];
      assert j < |value| ==> value[j..][1..] == value[j + 1..];
      assert table[i + 1, j] == Matches(glob[i + 1..], value[j..]);
      if glob[i] == '*' {
        table[i, j] := table[i + 1, j] || (j < |value| && table[i, j + 1]);
      } else if glob[i] == '?' {
        table[i, j] := j < |value| && table[i + 1, j + 1];
      } else {
        table[i, j] := j < |value| && glob[i] == value[j] && table[i + 1, j + 1];
      }
    }
  }

  // ---- entries ----

  datatype Pin = Pin(pattern: string, keyType: string, publicKey: string)

  /** Characters of a canonical host, bare or in brackets with a port. */
  predicate PatternChar(c: char) {
    'a' <= c <= 'z' || '0' <= c <= '9' || c == '.' || c == '-' || c == ':' || c == '[' || c == ']'
  }

  /** A pin as it is built from a canonical host, a port and a valid key. */
  predicate PinOk(pin: Pin) {
    && pin.pattern != "" && (forall i :: 0 <= i < |pin.pattern| ==> PatternChar(pin.pattern[i]))
    && IsWord(pin.keyType) && IsWord(pin.publicKey)
  }

  function PinLine(pin: Pin): string {
    pin.pattern + " " + (pin.keyType + " " + pin.publicKey)
  }

  datatype HostEntry = HostEntry(marker: string, patterns: string, keyType: string, publicKey: string)

  function ParseEntry(line: string): Option<HostEntry> {
    var fields := Fields(line);
    if fields == [] || HasPrefix(fields[0], "#") then None
    else if HasPrefix(fields[0], "@") then
      if |fields| < 4 then None else Some(HostEntry(fields[0], fields[1], fields[2], fields[3]))
    else if |fields| < 3 then None
    else Some(HostEntry("", fields[0], fields[1], fields[2]))
  }

  predicate ListContains(list: string, pattern: string) {
    pattern in SplitBy(list, ',')
  }

  predicate GlobChar(s: string) {
    exists i :: 0 <= i < |s| && (s[i] == '*' || s[i] == '?')
  }

  /** A hashed candidate may match anything. */
  predicate CandidateMayMatch(candidate: string, pattern: string) {
    candidate != "" &&
    (HasPrefix(candidate, "|") || (GlobChar(TrimPrefix(candidate, "!")) && Matches(TrimPrefix(candidate, "!"), pattern)))
  }

  predicate ListMayMatch(list: string, pattern: string) {
    exists c :: c in SplitBy(list, ',') && CandidateMayMatch(c, pattern)
  }

  // ---- verification ----

  datatype Verdict = Skipped | Pinned | Mismatch

  /** What one line says about a pin. */
  function LineVerdict(line: string, pin: Pin): Verdict {
    match ParseEntry(line)
    case None => Skipped
    case Some(e) =>
      if e.marker != "" && (ListContains(e.patterns, pin.pattern) || ListMayMatch(e.patterns, pin.pattern)) then Mismatch
      else if ListMayMatch(e.patterns, pin.pattern) then Mismatch
      else if !ListContains(e.patterns, pin.pattern) then Skipped
      else if e.keyType != pin.keyType then Skipped
      else if e.publicKey != pin.publicKey then Mismatch
      else Pinned
  }

  datatype Verified = Found | NotFound | Conflict

  function VerifyLines(lines: seq<string>, pin: Pin): Verified {
    if exists i :: 0 <= i < |lines| && LineVerdict(lines[i], pin).Mismatch? then Conflict
    else if exists i :: 0 <= i < |lines| && LineVerdict(lines[i], pin).Pinned? then Found
    else NotFound
  }

  function VerifyPin(data: string, pin: Pin): Verified {
    VerifyLines(SplitBy(data, '\n'), pin)
  }

  /** The loop with its found flag. */
  method VerifyPinData(data: string, pin: Pin) returns (r: Verified)
    ensures r == VerifyPin(data, pin)
  {
    var lines := SplitBy(data, '\n');
    var found := false;
    for i := 0 to |lines|
      invariant forall j :: 0 <= j < i ==> !LineVerdict(lines[j], pin).Mismatch?
      invariant found <==> exists j :: 0 <= j < i && LineVerdict(lines[j], pin).Pinned?
    {
      var verdict := LineVerdict(lines[i], pin);
      if verdict.Mismatch? {
        return Conflict;
      }
      if verdict.Pinned? {
        found := true;
      }
    }
    return if found then Found else NotFound;
  }

  // ---- upsert ----

  function AppendLine(data: string, line: string): string {
    (if data != "" && data[|data| - 1] != '\n' then data + "\n" else data) + line + "\n"
  }

  function UpsertPin(data: string, pin: Pin): Result<string> {
    match VerifyPin(data, pin)
    case Found => Ok(data)
    case NotFound => Ok(AppendLine(data, PinLine(pin)))
    case Conflict => Err("known_host_mismatch")
  }

  /** The appended line's fields are the pin's. */
  lemma PinLineParses(pin: Pin)
    requires PinOk(pin)
    ensures ParseEntry(PinLine(pin)) == Some(HostEntry("", pin.pattern, pin.keyType, pin.publicKey))
  {
    var words := [pin.pattern, pin.keyType, pin.publicKey];
    assert forall i :: 0 <= i < |pin.pattern| ==> PatternChar(pin.pattern[i]);
    assert words[1..] == [pin.keyType, pin.publicKey];
    assert [pin.keyType, pin.publicKey][1..] == [pin.publicKey];
    assert Spaced([pin.keyType, pin.publicKey]) == pin.keyType + " " + pin.publicKey;
    assert Spaced(words) == PinLine(pin);
    FieldsOfSpaced(words);
    assert !HasPrefix(pin.pattern, "#") && !HasPrefix(pin.pattern, "@") by {
      assert PatternChar(pin.pattern[0]);
      assert "#"[0] == '#' && "@"[0] == '@';
    }
  }

  lemma PinLineIsPinned(pin: Pin)
    requires PinOk(pin)
    ensures LineVerdict(PinLine(pin), pin) == Pinned
  {
    PinLineParses(pin);
    var p := pin.pattern;
    assert Without(p, ',');
    SplitFirstPart(p, ',', "");
    assert !HasPrefix(p, "|") && !HasPrefix(p, "!") by {
      assert PatternChar(p[0]);
      assert "|"[0] == '|' && "!"[0] == '!';
    }
    assert TrimPrefix(p, "!") == p;
    assert !GlobChar(p) by {
      assert forall i :: 0 <= i < |p| ==> PatternChar(p[i]);
    }
  }

  lemma PinLineIsOneLine(pin: Pin)
    requires PinOk(pin)
    ensures Without(PinLine(pin), '\n')
  {
  }

  /** The lines that appending keeps: an empty last one is completed. */
  function LinesKept(data: string): seq<string> {
    var lines := SplitBy(data, '\n');
    if data == "" || data[|data| - 1] == '\n' then lines[..|lines| - 1] else lines
  }

  lemma SplitLine(line: string)
    requires Without(line, '\n')
    ensures SplitBy(line + ['\n'], '\n') == [line, ""]
  {
    SplitFirstPart(line, '\n', "");
    assert line + ['\n'] + "" == line + ['\n'];
    assert SplitBy("", '\n') == [""];
  }

  lemma LinesOfFullData(head: string)
    ensures LinesKept(head + ['\n']) == SplitBy(head, '\n')
    ensures SplitBy(head + ['\n'], '\n') == SplitBy(head, '\n') + [""]
  {
    SplitConcat(head, '\n', "");
    assert head + ['\n'] + "" == head + ['\n'];
    assert SplitBy("", '\n') == [""];
  }

  /** The lines after appending: all the earlier ones, then the new one. */
  lemma AppendedLines(data: string, line: string)
    requires Without(line, '\n')
    ensures SplitBy(AppendLine(data, line), '\n') == LinesKept(data) + [line, ""]
    ensures SplitBy(data, '\n') == LinesKept(data) || SplitBy(data, '\n') == LinesKept(data) + [""]
  {
    assert "\n" == ['\n'];
    SplitLine(line);
    if data == "" {
      assert AppendLine(data, line) == line + ['\n'];
      assert SplitBy("", '\n') == [""];
      assert LinesKept(data) == [];
    } else if data[|data| - 1] == '\n' {
      var head := data[..|data| - 1];
      assert data == head + ['\n'];
      LinesOfFullData(head);
      SplitConcat(head, '\n', line + ['\n']);
      assert AppendLine(data, line) == head + ['\n'] + (line + ['\n']);
    } else {
      SplitConcat(data, '\n', line + ['\n']);
      assert AppendLine(data, line) == data + ['\n'] + (line + ['\n']);
    }
  }

  lemma EmptyLineIsSkipped(pin: Pin)
    ensures LineVerdict("", pin) == Skipped
  {
  }

  /** Whenever verification finds nothing, appending the pin makes it found, and
      a second upsert changes nothing; the earlier lines all stay. */
  lemma AppendedPinIsFound(data: string, pin: Pin)
    requires PinOk(pin) && VerifyPin(data, pin) == NotFound
    ensures VerifyPin(AppendLine(data, PinLine(pin)), pin) == Found
    ensures UpsertPin(data, pin) == Ok(AppendLine(data, PinLine(pin)))
    ensures UpsertPin(AppendLine(data, PinLine(pin)), pin) == UpsertPin(data, pin)
    ensures forall l :: l in SplitBy(data, '\n') ==> l == "" || l in SplitBy(AppendLine(data, PinLine(pin)), '\n')
  {
    var line := PinLine(pin);
    PinLineIsOneLine(pin);
    AppendedLines(data, line);
    PinLineIsPinned(pin);
    EmptyLineIsSkipped(pin);
    var kept := LinesKept(data);
    VerifyAppended(SplitBy(data, '\n'), kept, line, pin);
    forall l | l in SplitBy(data, '\n') && l != ""
      ensures l in kept + [line, ""]
    {
      assert l in kept;
    }
  }

  lemma VerifyAppended(lines: seq<string>, kept: seq<string>, line: string, pin: Pin)
    requires lines == kept || lines == kept + [""]
    requires VerifyLines(lines, pin) == NotFound && LineVerdict(line, pin) == Pinned && LineVerdict("", pin) == Skipped
    ensures VerifyLines(kept + [line, ""], pin) == Found
  {
    var after := kept + [line, ""];
    forall i | 0 <= i < |after|
      ensures !LineVerdict(after[i], pin).Mismatch?
    {
      if i < |kept| {
        assert after[i] == lines[i];
      }
    }
    assert after[|kept|] == line;
  }
}
