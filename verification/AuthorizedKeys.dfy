/** Upserting a managed line in an authorized_keys file
    (internal/sshprovision/authorized_keys.go). */
module AuthorizedKeysFiles {
  import opened Wrappers
  import opened Text
  import opened AuthorizedKeyLines

  // ---- lines of a file ----

  function SplitOn(s: string): (lines: seq<string>)
    ensures lines != []
  {
    SplitBy(s, '\n')
  }

  function JoinOn(lines: seq<string>): string {
    if lines == [] then "" else if |lines| == 1 then lines[0] else lines[0] + "\n" + JoinOn(lines[1..])
  }

  datatype File = File(lines: seq<string>, trailingNewline: bool)

  function Split(data: string): File {
    if data == "" then File([], true)
    else
      var trimmed := TrimSuffix(data, "\n");
      if trimmed == "" then File([], HasSuffix(data, "\n")) else File(SplitOn(trimmed), HasSuffix(data, "\n"))
  }

  function Join(f: File): string {
    if f.lines == [] then (if f.trailingNewline then "\n" else "")
    else JoinOn(f.lines) + (if f.trailingNewline then "\n" else "")
  }

  predicate OneLine(s: string) {
    Without(s, '\n')
  }

  lemma SplitFirst(l: string, rest: string)
    requires OneLine(l)
    ensures SplitOn(l + "\n" + rest) == [l] + SplitOn(rest)
    ensures SplitOn(l) == [l]
  {
    assert "\n" == ['\n'];
    SplitFirstPart(l, '\n', rest);
  }

  lemma {:induction false} SplitOfJoin(lines: seq<string>)
    requires lines != [] && forall i :: 0 <= i < |lines| ==> OneLine(lines[i])
    ensures SplitOn(JoinOn(lines)) == lines
  {
    if |lines| == 1 {
      SplitFirst(lines[0], "");
    } else {
      SplitOfJoin(lines[1..]);
      SplitFirst(lines[0], JoinOn(lines[1..]));
      assert [lines[0]] + lines[1..] == lines;
    }
  }

  lemma {:induction false} JoinLast(lines: seq<string>, last: string)
    requires lines != []
    ensures JoinOn(lines + [last]) == JoinOn(lines) + "\n" + last
  {
    if |lines| > 1 {
      JoinLast(lines[1..], last);
      assert (lines + [last])[1..] == lines[1..] + [last];
    } else {
      assert (lines + [last])[1..] == [last];
    }
  }

  lemma {:induction false} JoinHasText(lines: seq<string>, i: nat)
    requires i < |lines| && lines[i] != ""
    ensures JoinOn(lines) != ""
  {
    if |lines| > 1 && i > 0 {
      JoinHasText(lines[1..], i - 1);
    }
  }

  /** Writing lines with some text and reading them back: the same file, except
      that a last empty line without a final newline reads as the newline. */
  lemma SplitOfWritten(f: File, i: nat)
    requires i < |f.lines| && f.lines[i] != "" && forall k :: 0 <= k < |f.lines| ==> OneLine(f.lines[k])
    ensures var n := |f.lines| - 1;
      Split(Join(f)) == if !f.trailingNewline && f.lines[n] == "" then File(f.lines[..n], true) else f
    ensures Join(Split(Join(f))) == Join(f)
  {
    var n := |f.lines| - 1;
    var text := JoinOn(f.lines);
    JoinHasText(f.lines, i);
    SplitOfJoin(f.lines);
    if f.trailingNewline {
      assert TrimSuffix(text + "\n", "\n") == text;
    } else if f.lines[n] == "" {
      assert i < n && f.lines == f.lines[..n] + [""];
      JoinLast(f.lines[..n], "");
      JoinHasText(f.lines[..n], i);
      SplitOfJoin(f.lines[..n]);
      assert text == JoinOn(f.lines[..n]) + "\n";
      assert TrimSuffix(text, "\n") == JoinOn(f.lines[..n]);
    } else {
      LastCharOf(f.lines);
      assert Join(f) == text;
    }
  }

  lemma LastCharOf(lines: seq<string>)
    requires lines != [] && lines[|lines| - 1] != "" && OneLine(lines[|lines| - 1])
    ensures !HasSuffix(JoinOn(lines), "\n")
  {
    var n := |lines| - 1;
    var last := lines[n];
    if n > 0 {
      assert lines == lines[..n] + [last];
      JoinLast(lines[..n], last);
      assert JoinOn(lines)[|JoinOn(lines)| - 1] == last[|last| - 1];
    }
    var text := JoinOn(lines);
    assert "\n" == ['\n'];
    NotSuffixChar(text, '\n');
  }

  // ---- fields of a line, with quotes ----

  predicate KeySpace(c: char) {
    c == ' ' || c == '\t'
  }

  function TrimKeySpace(s: string): string {
    if s != "" && KeySpace(s[0]) then TrimKeySpace(s[1..]) else s
  }

  function Further(n: Option<nat>): Option<nat> {
    if n.Some? then Some(n.value + 1) else None
  }

  /** Where the field that starts here ends; none if a quote stays open. */
  function FieldEnd(s: string, inQuote: bool, escaped: bool): (n: Option<nat>)
    ensures n.Some? ==> n.value <= |s|
  {
    if s == "" then (if inQuote then None else Some(0))
    else if escaped then Further(FieldEnd(s[1..], inQuote, false))
    else if inQuote && s[0] == '\\' then Further(FieldEnd(s[1..], inQuote, true))
    else if s[0] == '"' then Further(FieldEnd(s[1..], !inQuote, false))
    else if !inQuote && KeySpace(s[0]) then Some(0)
    else Further(FieldEnd(s[1..], inQuote, false))
  }

  // ---- what a field is ----

  /** A character between quotes, or a backslash and the character it escapes. */
  datatype Inner = Unescaped(c: char) | Backslashed(c: char)

  /** A field is made of characters outside quotes and of quoted parts. */
  datatype Piece = Bare(c: char) | Quoted(inner: seq<Inner>)

  predicate InnerOk(x: Inner) {
    x.Unescaped? ==> x.c != '"' && x.c != '\\'
  }

  predicate PieceOk(p: Piece) {
    match p
    case Bare(c) => c != '"' && !KeySpace(c)
    case Quoted(inner) => forall i :: 0 <= i < |inner| ==> InnerOk(inner[i])
  }

  predicate PiecesOk(ps: seq<Piece>) {
    forall i :: 0 <= i < |ps| ==> PieceOk(ps[i])
  }

  function InnerChars(x: Inner): string {
    if x.Unescaped? then [x.c] else ['\\', x.c]
  }

  function InnerText(inner: seq<Inner>): string {
    if inner == [] then "" else InnerChars(inner[0]) + InnerText(inner[1..])
  }

  function PieceText(p: Piece): string {
    match p
    case Bare(c) => [c]
    case Quoted(inner) => "\"" + InnerText(inner) + "\""
  }

  function FieldText(ps: seq<Piece>): string {
    if ps == [] then "" else PieceText(ps[0]) + FieldText(ps[1..])
  }

  lemma InnerStep(x: Inner, later: string)
    requires InnerOk(x)
    ensures FieldEnd(InnerChars(x) + later, true, false) == AddTo(|InnerChars(x)|, FieldEnd(later, true, false))
  {
    if x.Unescaped? {
      assert ([x.c] + later)[1..] == later;
    } else {
      assert (['\\', x.c] + later)[1..] == [x.c] + later && ([x.c] + later)[1..] == later;
    }
  }

  lemma {:induction false} InnerIsScanned(inner: seq<Inner>, rest: string)
    requires forall i :: 0 <= i < |inner| ==> InnerOk(inner[i])
    ensures FieldEnd(InnerText(inner) + rest, true, false) == AddTo(|InnerText(inner)|, FieldEnd(rest, true, false))
    decreases |inner|
  {
    if inner == [] {
      assert InnerText(inner) + rest == rest;
    } else {
      var first, later := InnerChars(inner[0]), InnerText(inner[1..]);
      InnerIsScanned(inner[1..], rest);
      InnerStep(inner[0], later + rest);
      assert InnerText(inner) + rest == first + (later + rest);
    }
  }

  lemma PieceStep(p: Piece, later: string)
    requires PieceOk(p)
    ensures FieldEnd(PieceText(p) + later, false, false) == AddTo(|PieceText(p)|, FieldEnd(later, false, false))
  {
    match p
    case Bare(c) =>
      assert ([c] + later)[1..] == later;
    case Quoted(inner) =>
      var s := PieceText(p) + later;
      assert s[0] == '"' && s[1..] == InnerText(inner) + ("\"" + later);
      InnerIsScanned(inner, "\"" + later);
      assert ("\"" + later)[1..] == later;
  }

  /** A field that is complete is scanned to its end. */
  lemma {:induction false} FieldIsScanned(ps: seq<Piece>, rest: string)
    requires PiecesOk(ps)
    ensures FieldEnd(FieldText(ps) + rest, false, false) == AddTo(|FieldText(ps)|, FieldEnd(rest, false, false))
    decreases |ps|
  {
    if ps == [] {
      assert FieldText(ps) + rest == rest;
    } else {
      var first, later := PieceText(ps[0]), FieldText(ps[1..]);
      FieldIsScanned(ps[1..], rest);
      PieceStep(ps[0], later + rest);
      assert FieldText(ps) + rest == first + (later + rest);
    }
  }

  /** The first character between quotes, escaped or not. */
  lemma FirstInner(s: string) returns (x: Inner, later: string)
    requires s != "" && s[0] != '"' && FieldEnd(s, true, false).Some?
    ensures InnerOk(x) && s == InnerChars(x) + later && |later| < |s|
    ensures FieldEnd(later, true, false).Some?
    ensures FieldEnd(s, true, false) == AddTo(|InnerChars(x)|, FieldEnd(later, true, false))
  {
    if s[0] == '\\' {
      x, later := Backslashed(s[1]), s[2..];
      assert s[1..][1..] == later;
      assert s == ['\\', s[1]] + later;
    } else {
      x, later := Unescaped(s[0]), s[1..];
    }
  }

  /** Up to the closing quote. */
  lemma {:induction false} InnerBefore(s: string) returns (inner: seq<Inner>, rest: string)
    requires FieldEnd(s, true, false).Some?
    ensures forall i :: 0 <= i < |inner| ==> InnerOk(inner[i])
    ensures s == InnerText(inner) + "\"" + rest && |rest| < |s|
    ensures FieldEnd(s, true, false) == AddTo(|s| - |rest|, FieldEnd(rest, false, false))
    decreases |s|
  {
    if s[0] == '"' {
      inner, rest := [], s[1..];
    } else {
      var x, later := FirstInner(s);
      var more;
      more, rest := InnerBefore(later);
      inner := [x] + more;
      InnerGoesOn(s, x, later, more, rest);
    }
  }

  lemma InnerGoesOn(s: string, x: Inner, later: string, more: seq<Inner>, rest: string)
    requires s == InnerChars(x) + later && later == InnerText(more) + "\"" + rest
    ensures s == InnerText([x] + more) + "\"" + rest
  {
    assert ([x] + more)[1..] == more;
  }

  /** The first piece of what is left of a field. */
  lemma FirstPiece(s: string) returns (p: Piece, rest: string)
    requires s != "" && !KeySpace(s[0]) && FieldEnd(s, false, false).Some?
    ensures PieceOk(p) && s == PieceText(p) + rest && |rest| < |s|
    ensures FieldEnd(rest, false, false).Some?
    ensures FieldEnd(s, false, false) == AddTo(|PieceText(p)|, FieldEnd(rest, false, false))
  {
    if s[0] == '"' {
      var inner, last := InnerBefore(s[1..]);
      p, rest := Quoted(inner), last;
      assert s == PieceText(p) + rest by {
        assert s == "\"" + s[1..];
      }
    } else {
      p, rest := Bare(s[0]), s[1..];
    }
  }

  lemma FieldGoesOn(s: string, p: Piece, rest: string, m: nat, more: seq<Piece>)
    requires s == PieceText(p) + rest && m <= |rest| && rest[..m] == FieldText(more)
    ensures s[..|PieceText(p)| + m] == FieldText([p] + more)
    ensures |PieceText(p)| + m == |s| <==> m == |rest|
    ensures m < |rest| ==> s[|PieceText(p)| + m] == rest[m]
  {
    assert s[..|PieceText(p)| + m] == PieceText(p) + rest[..m];
    assert ([p] + more)[1..] == more;
  }

  /** What the scan stops after is a complete field, and the line ends there or goes
      on with a space. */
  lemma {:induction false} ScannedIsField(s: string, n: nat) returns (ps: seq<Piece>)
    requires FieldEnd(s, false, false) == Some(n)
    ensures PiecesOk(ps) && s[..n] == FieldText(ps) && (n == |s| || KeySpace(s[n]))
    decreases |s|
  {
    if s == "" || KeySpace(s[0]) {
      ps := [];
    } else {
      var p, rest := FirstPiece(s);
      var m := FieldEnd(rest, false, false).value;
      var more := ScannedIsField(rest, m);
      FieldGoesOn(s, p, rest, m, more);
      ps := [p] + more;
    }
  }

  ghost predicate IsField(text: string) {
    exists ps :: PiecesOk(ps) && FieldText(ps) == text
  }

  lemma FieldThenEnd(ps: seq<Piece>, rest: string, s: string)
    requires PiecesOk(ps) && s == FieldText(ps) + rest && (rest == "" || KeySpace(rest[0]))
    ensures FieldEnd(s, false, false) == Some(|FieldText(ps)|)
  {
    FieldIsScanned(ps, rest);
  }

  lemma FieldIsFound(s: string, n: nat)
    requires n <= |s| && (n == |s| || KeySpace(s[n])) && IsField(s[..n])
    ensures FieldEnd(s, false, false) == Some(n)
  {
    var ps :| PiecesOk(ps) && FieldText(ps) == s[..n];
    assert s[..n] + s[n..] == s;
    FieldThenEnd(ps, s[n..], s);
  }

  /** The scan finds an end exactly where a complete field ends: made of bare
      characters and quoted parts, and followed by a space or by nothing. */
  lemma FieldEndIff(s: string, n: nat)
    ensures FieldEnd(s, false, false) == Some(n) <==> n <= |s| && (n == |s| || KeySpace(s[n])) && IsField(s[..n])
  {
    if FieldEnd(s, false, false) == Some(n) {
      var ps := ScannedIsField(s, n);
    } else if n <= |s| && (n == |s| || KeySpace(s[n])) && IsField(s[..n]) {
      FieldIsFound(s, n);
    }
  }

  /** The scan with its quote and escape flags. */
  method ScanField(s: string) returns (n: Option<nat>)
    ensures n == FieldEnd(s, false, false)
  {
    var inQuote, escaped := false, false;
    var i := 0;
    while i < |s|
      invariant 0 <= i <= |s|
      invariant FieldEnd(s, false, false) == AddTo(i, FieldEnd(s[i..], inQuote, escaped))
    {
      var c := s[i];
      assert s[i..][0] == c && s[i..][1..] == s[i + 1..];
      if escaped {
        escaped := false;
      } else if inQuote && c == '\\' {
        escaped := true;
      } else if c == '"' {
        inQuote := !inQuote;
      } else if !inQuote && KeySpace(c) {
        return Some(i);
      }
      i := i + 1;
    }
    return if inQuote then None else Some(i);
  }

  function AddTo(i: nat, n: Option<nat>): Option<nat> {
    if n.Some? then Some(i + n.value) else None
  }

  function ReadField(line: string): Option<(string, string)> {
    var s := TrimKeySpace(line);
    if s == "" then None
    else
      var n := FieldEnd(s, false, false);
      if n.None? then None else Some((s[..n.value], TrimKeySpace(s[n.value..])))
  }

  /** Does the line's key, after optional options, equal this one? */
  predicate UsesKey(line: string, publicKey: string) {
    var s := TrimSpace(line);
    s != "" && !HasPrefix(s, "#") &&
    match ReadField(s)
    case None => false
    case Some((first, rest)) =>
      if first == KEY_TYPE then ReadField(rest).Some? && ReadField(rest).value.0 == publicKey
      else match ReadField(rest)
           case None => false
           case Some((keyType, rest2)) => keyType == KEY_TYPE && ReadField(rest2).Some? && ReadField(rest2).value.0 == publicKey
  }

  // ---- the upsert ----

  /** Blank lines and comments. */
  predicate HeaderLine(line: string) {
    TrimSpace(line) == "" || HasPrefix(TrimSpace(line), "#")
  }

  function HeaderCount(lines: seq<string>): (n: nat)
    ensures n <= |lines|
  {
    if lines == [] || !HeaderLine(lines[0]) then 0 else 1 + HeaderCount(lines[1..])
  }

  /** What the upsert does with a line: keep it, drop it, or refuse. */
  function Keep(rules: Rules, line: string, e: Entry): Result<bool> {
    var m :- ParseMetadata(rules, line);
    if m.None? then Ok(!UsesKey(line, e.publicKey))
    else if m.value.peerID == e.peerID then Ok(false)
    else if m.value.keyID == e.keyID then Err("key id already belongs to a peer")
    else if UsesKey(line, e.publicKey) then Err("public key already belongs to a peer")
    else Ok(true)
  }

  function Kept(keep: string -> Result<bool>, lines: seq<string>): Result<seq<string>> {
    if lines == [] then Ok([])
    else
      var n := |lines| - 1;
      var out :- Kept(keep, lines[..n]);
      var kept :- keep(lines[n]);
      Ok(if kept then out + [lines[n]] else out)
  }

  function Keeper(rules: Rules, e: Entry): string -> Result<bool> {
    (line: string) => Keep(rules, line, e)
  }

  function Inserted(lines: seq<string>, at: nat, line: string): seq<string> {
    var i := if at > |lines| then |lines| else at;
    lines[..i] + [line] + lines[i..]
  }

  /** The kept lines with the new line after the header. */
  function UpsertLines(keep: string -> Result<bool>, lines: seq<string>, line: string): Result<seq<string>> {
    var out :- Kept(keep, lines);
    Ok(Inserted(out, HeaderCount(lines), line))
  }

  function UpsertText(keep: string -> Result<bool>, data: string, line: string): Result<string> {
    var file := Split(data);
    var lines :- UpsertLines(keep, file.lines, line);
    Ok(Join(File(lines, file.trailingNewline)))
  }

  function Upsert(rules: Rules, data: string, e: Entry): Result<string> {
    if !EntryOk(rules, e) then Err("invalid_authorized_key") else UpsertText(Keeper(rules, e), data, Line(e))
  }

  method UpsertManagedLine(rules: Rules, data: string, e: Entry) returns (r: Result<string>)
    ensures r == Upsert(rules, data, e)
  {
    if !EntryOk(rules, e) {
      return Err("invalid_authorized_key");
    }
    r := UpsertByLoop(Keeper(rules, e), data, Line(e));
  }

  /** The loop over the lines. */
  method UpsertByLoop(keep: string -> Result<bool>, data: string, line: string) returns (r: Result<string>)
    ensures r == UpsertText(keep, data, line)
  {
    var file := Split(data);
    var lines := file.lines;
    var out: seq<string> := [];
    for i := 0 to |lines|
      invariant Kept(keep, lines[..i]) == Ok(out)
    {
      assert lines[..i + 1][..i] == lines[..i];
      var kept := keep(lines[i]);
      if kept.Err? {
        KeptFails(keep, lines, i + 1);
        return Err(kept.error);
      }
      if kept.value {
        out := out + [lines[i]];
      }
    }
    assert lines[..|lines|] == lines;
    return Ok(Join(File(Inserted(out, HeaderCount(lines), line), file.trailingNewline)));
  }

  lemma {:induction false} KeptFails(keep: string -> Result<bool>, lines: seq<string>, i: nat)
    requires i <= |lines| && Kept(keep, lines[..i]).Err?
    ensures Kept(keep, lines) == Err(Kept(keep, lines[..i]).error)
    decreases |lines|
  {
    if i == |lines| {
      assert lines[..i] == lines;
    } else {
      var n := |lines| - 1;
      assert lines[..n][..i] == lines[..i];
      KeptFails(keep, lines[..n], i);
    }
  }

  // ---- what is left alone ----

  /** The lines that a successful upsert keeps, in order. */
  function Others(keep: string -> Result<bool>, lines: seq<string>): seq<string> {
    if lines == [] then []
    else
      var n := |lines| - 1;
      Others(keep, lines[..n]) + if keep(lines[n]) == Ok(true) then [lines[n]] else []
  }

  lemma {:induction false} KeptAreOthers(keep: string -> Result<bool>, lines: seq<string>)
    requires Kept(keep, lines).Ok?
    ensures Kept(keep, lines).value == Others(keep, lines)
    ensures forall i :: 0 <= i < |Others(keep, lines)| ==> keep(Others(keep, lines)[i]) == Ok(true)
    ensures forall i :: 0 <= i < |Others(keep, lines)| ==> Others(keep, lines)[i] in lines
  {
    if lines != [] {
      KeptAreOthers(keep, lines[..|lines| - 1]);
    }
  }

  lemma KeptOneMore(keep: string -> Result<bool>, init: seq<string>, last: string)
    requires keep(last) == Ok(true) && Kept(keep, init) == Ok(init)
    ensures Kept(keep, init + [last]) == Ok(init + [last])
  {
    var all := init + [last];
    assert all[..|all| - 1] == init && all[|all| - 1] == last;
  }

  lemma {:induction false} KeptAllUpTo(keep: string -> Result<bool>, lines: seq<string>, n: nat)
    requires n <= |lines| && forall i :: 0 <= i < |lines| ==> keep(lines[i]) == Ok(true)
    ensures Kept(keep, lines[..n]) == Ok(lines[..n])
  {
    if n > 0 {
      KeptAllUpTo(keep, lines, n - 1);
      KeptOneMore(keep, lines[..n - 1], lines[n - 1]);
      assert lines[..n - 1] + [lines[n - 1]] == lines[..n];
    }
  }

  lemma KeptAll(keep: string -> Result<bool>, lines: seq<string>)
    requires forall i :: 0 <= i < |lines| ==> keep(lines[i]) == Ok(true)
    ensures Kept(keep, lines) == Ok(lines)
  {
    KeptAllUpTo(keep, lines, |lines|);
    assert lines[..|lines|] == lines;
  }

  lemma {:induction false} KeptConcat(keep: string -> Result<bool>, a: seq<string>, b: seq<string>)
    requires Kept(keep, a).Ok? && Kept(keep, b).Ok?
    ensures Kept(keep, a + b) == Ok(Kept(keep, a).value + Kept(keep, b).value)
  {
    if b == [] {
      assert a + b == a;
      assert Kept(keep, a).value + [] == Kept(keep, a).value;
    } else {
      var n := |b| - 1;
      KeptConcat(keep, a, b[..n]);
      assert (a + b)[..|a + b| - 1] == a + b[..n];
      assert (a + b)[|a + b| - 1] == b[n];
      var x, y := Kept(keep, a).value, Kept(keep, b[..n]).value;
      assert x + (y + [b[n]]) == x + y + [b[n]];
      if keep(b[n]).value {
        assert Kept(keep, b).value == y + [b[n]];
      } else {
        assert Kept(keep, b).value == y;
      }
    }
  }

  // ---- the fixpoint ----

  /** No blank or comment line carries a marker. */
  predicate NoMarkedComments(lines: seq<string>) {
    forall i :: 0 <= i < |lines| && HeaderLine(lines[i]) ==> FirstMarker(Fields(lines[i])).None?
  }

  lemma HeaderLineIsKept(rules: Rules, line: string, e: Entry)
    requires HeaderLine(line) && FirstMarker(Fields(line)).None?
    ensures Keep(rules, line, e) == Ok(true)
  {
  }

  lemma {:induction false} TrimRightKeepsFirst(s: string)
    requires s != "" && !IsSpace(s[0])
    ensures TrimRight(s) != "" && TrimRight(s)[0] == s[0]
  {
    if IsSpace(s[|s| - 1]) {
      TrimRightKeepsFirst(s[..|s| - 1]);
    }
  }

  lemma PrintedIsNoHeader(e: Entry)
    ensures !HeaderLine(Line(e)) && Line(e) != ""
  {
    assert Line(e)[0] == NO_AGENT[0] == 'n';
    TrimRightKeepsFirst(Line(e));
  }

  lemma {:induction false} HeaderOf(a: seq<string>, l: string, b: seq<string>)
    requires (forall i :: 0 <= i < |a| ==> HeaderLine(a[i])) && !HeaderLine(l)
    ensures HeaderCount(a + [l] + b) == |a|
  {
    if a != [] {
      assert (a + [l] + b)[1..] == a[1..] + [l] + b;
      HeaderOf(a[1..], l, b);
    }
  }

  lemma {:induction false} HeadersAreHeaders(lines: seq<string>)
    ensures forall i :: 0 <= i < HeaderCount(lines) ==> HeaderLine(lines[i])
  {
    if lines != [] && HeaderLine(lines[0]) {
      HeadersAreHeaders(lines[1..]);
      assert forall i :: 0 < i < |lines| ==> lines[i] == lines[1..][i - 1];
    }
  }

  /** Header lines, the new line, and lines that are all kept. */
  ghost predicate Settled(keep: string -> Result<bool>, lines: seq<string>, l: string, a: seq<string>, b: seq<string>) {
    && lines == a + [l] + b
    && (forall i :: 0 <= i < |a| ==> HeaderLine(a[i]) && keep(a[i]) == Ok(true))
    && (forall i :: 0 <= i < |b| ==> keep(b[i]) == Ok(true))
  }

  lemma SettledIsFixpoint(keep: string -> Result<bool>, lines: seq<string>, l: string, a: seq<string>, b: seq<string>)
    requires Settled(keep, lines, l, a, b) && keep(l) == Ok(false) && !HeaderLine(l)
    ensures UpsertLines(keep, lines, l) == Ok(lines)
  {
    HeaderOf(a, l, b);
    KeptAll(keep, a);
    KeptAll(keep, b);
    assert Kept(keep, [l]) == Ok([]) by {
      assert [l][..0] == [];
    }
    KeptConcat(keep, a, [l]);
    KeptConcat(keep, a + [l], b);
    assert a + [] + b == a + b;
    assert (a + b)[..|a|] == a && (a + b)[|a|..] == b;
  }

  /** The lines that a successful upsert writes are settled. */
  lemma UpsertSettles(keep: string -> Result<bool>, lines: seq<string>, l: string) returns (a: seq<string>, b: seq<string>)
    requires UpsertLines(keep, lines, l).Ok?
    requires forall i :: 0 <= i < |lines| && HeaderLine(lines[i]) ==> keep(lines[i]) == Ok(true)
    ensures Settled(keep, UpsertLines(keep, lines, l).value, l, a, b)
    ensures a + b == Others(keep, lines)
  {
    var h := HeaderCount(lines);
    var front, back := lines[..h], lines[h..];
    assert lines == front + back;
    HeadersAreHeaders(lines);
    KeptAll(keep, front);
    BackIsKept(keep, front, back);
    KeptConcat(keep, front, back);
    KeptAreOthers(keep, lines);
    a, b := front, Kept(keep, back).value;
    KeptAreOthers(keep, back);
    assert (a + b)[..h] == a && (a + b)[h..] == b;
  }

  lemma {:induction false} BackIsKept(keep: string -> Result<bool>, front: seq<string>, back: seq<string>)
    requires Kept(keep, front + back).Ok?
    ensures Kept(keep, back).Ok?
  {
    if back != [] {
      var n := |back| - 1;
      assert (front + back)[..|front + back| - 1] == front + back[..n];
      assert (front + back)[|front + back| - 1] == back[n];
      BackIsKept(keep, front, back[..n]);
    }
  }

  /** A file's lines, as read. */
  lemma ReadLines(data: string)
    ensures forall i :: 0 <= i < |Split(data).lines| ==> OneLine(Split(data).lines[i])
  {
    SplitPartsWithout(TrimSuffix(data, "\n"), '\n');
  }

  lemma ReadyWordsAreWords(words: seq<string>, e: Entry)
    requires Ready(words, e) && IsWord(MarkerOf(e))
    ensures forall i :: 0 <= i < |words| ==> IsWord(words[i])
  {
    forall i | 0 <= i < |words|
      ensures IsWord(words[i])
    {
      assert i < 8 ==> NoColonOrSpace(words[i]);
    }
  }

  lemma PrintedIsOneLine(rules: Rules, e: Entry)
    requires rules.WellFormed() && EntryOk(rules, e)
    ensures OneLine(Line(e))
  {
    LineIsSpaced(rules, e);
    WordsAreReady(rules, e);
    MarkerIsWord(e);
    ReadyWordsAreWords(WordsOf(e), e);
    SpacedIsOneLine(WordsOf(e));
  }

  lemma {:induction false} SpacedIsOneLine(words: seq<string>)
    requires forall i :: 0 <= i < |words| ==> IsWord(words[i])
    ensures OneLine(Spaced(words))
  {
    if |words| > 1 {
      forall i | 0 <= i < |words[1..]|
        ensures IsWord(words[1..][i])
      {
        assert words[1..][i] == words[i + 1];
      }
      SpacedIsOneLine(words[1..]);
    }
  }

  /** Upserting into what an upsert wrote gives the same bytes. */
  lemma RewrittenSettled(keep: string -> Result<bool>, file: File, l: string, a: seq<string>, b: seq<string>)
    requires keep(l) == Ok(false) && !HeaderLine(l) && l != "" && OneLine(l)
    requires file.lines == a + [l] + b && Settled(keep, file.lines, l, a, b)
    requires (forall i :: 0 <= i < |a| ==> OneLine(a[i])) && (forall i :: 0 <= i < |b| ==> OneLine(b[i]))
    ensures UpsertText(keep, Join(file), l) == Ok(Join(file))
  {
    SplitOfWritten(file, |a|);
    var again := Split(Join(file));
    if again == file {
      SettledIsFixpoint(keep, again.lines, l, a, b);
    } else {
      var n := |b| - 1;
      assert b != [];
      assert again.lines == a + [l] + b[..n];
      SettledIsFixpoint(keep, again.lines, l, a, b[..n]);
    }
  }

  lemma TextIsFixpoint(keep: string -> Result<bool>, data: string, l: string) returns (a: seq<string>, b: seq<string>)
    requires keep(l) == Ok(false) && !HeaderLine(l) && l != "" && OneLine(l)
    requires UpsertText(keep, data, l).Ok?
    requires var lines := Split(data).lines; forall i :: 0 <= i < |lines| && HeaderLine(lines[i]) ==> keep(lines[i]) == Ok(true)
    ensures UpsertText(keep, data, l).value == Join(File(a + [l] + b, Split(data).trailingNewline))
    ensures a + b == Others(keep, Split(data).lines)
    ensures forall i :: 0 <= i < |a + b| ==> keep((a + b)[i]) == Ok(true)
    ensures UpsertText(keep, UpsertText(keep, data, l).value, l) == UpsertText(keep, data, l)
  {
    var file := Split(data);
    ReadLines(data);
    a, b := UpsertSettles(keep, file.lines, l);
    KeptAreOthers(keep, file.lines);
    assert forall i :: 0 <= i < |a| ==> a[i] == (a + b)[i];
    assert forall i :: 0 <= i < |b| ==> b[i] == (a + b)[|a| + i];
    RewrittenSettled(keep, File(a + [l] + b, file.trailingNewline), l, a, b);
  }

  /** Not the peer's line, and not a line with its key. */
  predicate Foreign(rules: Rules, line: string, e: Entry) {
    && !UsesKey(line, e.publicKey)
    && ParseMetadata(rules, line).Ok?
    && (ParseMetadata(rules, line).value.Some? ==> ParseMetadata(rules, line).value.value.peerID != e.peerID)
  }

  lemma KeptLineIsForeign(rules: Rules, line: string, e: Entry)
    requires Keep(rules, line, e) == Ok(true)
    ensures Foreign(rules, line, e)
  {
  }

  lemma PrintedIsReplaced(rules: Rules, e: Entry)
    requires rules.WellFormed() && EntryOk(rules, e)
    ensures Keep(rules, Line(e), e) == Ok(false)
  {
    PrintedLineParses(rules, e);
  }

  /** After a successful upsert exactly one line is the peer's, no other line uses
      its key, every other line is kept in order, and upserting again gives the
      same bytes: what verification relies on. */
  lemma UpsertIsFixpoint(rules: Rules, data: string, e: Entry) returns (a: seq<string>, b: seq<string>)
    requires rules.WellFormed() && NoMarkedComments(Split(data).lines) && Upsert(rules, data, e).Ok?
    ensures Upsert(rules, data, e).value == Join(File(a + [Line(e)] + b, Split(data).trailingNewline))
    ensures ParseMetadata(rules, Line(e)) == Ok(Some(Metadata(e.peerID, e.keyID)))
    ensures a + b == Others(Keeper(rules, e), Split(data).lines)
    ensures forall i :: 0 <= i < |a + b| ==> Foreign(rules, (a + b)[i], e)
    ensures Upsert(rules, Upsert(rules, data, e).value, e) == Upsert(rules, data, e)
  {
    var keep, lines := Keeper(rules, e), Split(data).lines;
    PrintedLineParses(rules, e);
    PrintedIsReplaced(rules, e);
    PrintedIsNoHeader(e);
    PrintedIsOneLine(rules, e);
    forall i | 0 <= i < |lines| && HeaderLine(lines[i])
      ensures keep(lines[i]) == Ok(true)
    {
      HeaderLineIsKept(rules, lines[i], e);
    }
    a, b := TextIsFixpoint(keep, data, Line(e));
    forall i | 0 <= i < |a + b|
      ensures Foreign(rules, (a + b)[i], e)
    {
      KeptLineIsForeign(rules, (a + b)[i], e);
    }
  }
}
