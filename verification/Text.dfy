/** String helpers with the meaning of Go's strings package, on ASCII text. */
module Text {

  predicate IsSpace(c: char) {
    c == ' ' || c == '\t' || c == '\n' || c == '\r' || c == '\U{000B}' || c == '\U{000C}'
  }

  function TrimLeft(s: string): string {
    if s != "" && IsSpace(s[0]) then TrimLeft(s[1..]) else s
  }

  function TrimRight(s: string): string {
    if s != "" && IsSpace(s[|s| - 1]) then TrimRight(s[..|s| - 1]) else s
  }

  function TrimSpace(s: string): string {
    TrimRight(TrimLeft(s))
  }

  predicate HasPrefix(s: string, prefix: string) {
    |prefix| <= |s| && s[..|prefix|] == prefix
  }

  predicate HasSuffix(s: string, suffix: string) {
    |suffix| <= |s| && s[|s| - |suffix|..] == suffix
  }

  /** A string that differs from the prefix somewhere does not have it. */
  lemma NotPrefix(s: string, prefix: string, i: nat)
    requires i < |prefix| && (i < |s| ==> s[i] != prefix[i])
    ensures !HasPrefix(s, prefix)
  {
    if |prefix| <= |s| {
      assert s[..|prefix|][i] == s[i];
    }
  }

  lemma NotSuffixChar(s: string, c: char)
    requires s != "" ==> s[|s| - 1] != c
    ensures !HasSuffix(s, [c])
  {
    if s != "" {
      assert s[|s| - 1..][0] == s[|s| - 1];
    }
  }

  function TrimSuffix(s: string, suffix: string): string {
    if HasSuffix(s, suffix) then s[..|s| - |suffix|] else s
  }

  function TrimPrefix(s: string, prefix: string): string {
    if HasPrefix(s, prefix) then s[|prefix|..] else s
  }

  /** The part of s before the first occurrence of c, or all of s. */
  function Before(s: string, c: char): string {
    if s == "" || s[0] == c then "" else [s[0]] + Before(s[1..], c)
  }

  // ---- splitting ----

  predicate Without(s: string, c: char) {
    forall i :: 0 <= i < |s| ==> s[i] != c
  }

  /** The parts of s between separators; there is always at least one. */
  function SplitBy(s: string, sep: char): (parts: seq<string>)
    ensures parts != []
  {
    if s == "" then [""]
    else if s[0] == sep then [""] + SplitBy(s[1..], sep)
    else [[s[0]] + SplitBy(s[1..], sep)[0]] + SplitBy(s[1..], sep)[1..]
  }

  lemma {:induction false} SplitPartsWithout(s: string, sep: char)
    ensures forall i :: 0 <= i < |SplitBy(s, sep)| ==> Without(SplitBy(s, sep)[i], sep)
  {
    if s != "" {
      SplitPartsWithout(s[1..], sep);
    }
  }

  lemma {:induction false} SplitFirstPart(l: string, sep: char, rest: string)
    requires Without(l, sep)
    ensures SplitBy(l + [sep] + rest, sep) == [l] + SplitBy(rest, sep)
    ensures SplitBy(l, sep) == [l]
  {
    if l == "" {
      assert l + [sep] + rest == [sep] + rest;
    } else {
      var all := l + [sep] + rest;
      assert all[1..] == l[1..] + [sep] + rest;
      assert forall i :: 0 <= i < |l| - 1 ==> l[1..][i] == l[i + 1];
      SplitFirstPart(l[1..], sep, rest);
      assert [l[0]] + l[1..] == l;
    }
  }

  /** Splitting after a separator. */
  lemma {:induction false} SplitConcat(a: string, sep: char, b: string)
    ensures SplitBy(a + [sep] + b, sep) == SplitBy(a, sep) + SplitBy(b, sep)
  {
    if a == "" {
      assert a + [sep] + b == [sep] + b;
    } else {
      var all := a + [sep] + b;
      assert all[1..] == a[1..] + [sep] + b;
      SplitConcat(a[1..], sep, b);
    }
  }
}
