/** One host's clip handling: polling the local clipboard, receiving peer clips
    and restoring history entries (internal/daemon/daemon.go). */
module Daemons {
  import opened Wrappers
  import opened Text
  import opened SeenSets

  datatype Kind = KText | KImage

  /** Clip content. The hash is the digest the code computes from the bytes. */
  datatype Content = Content(id: string, kind: Kind, bytes: string, hash: int, ts: int, concealed: bool)

  /** What the daemon last put on, or read from, the local clipboard. */
  datatype CurrentClip = CurrentClip(
    id: string, kind: Kind, hash: int, imagePath: string,
    content: Content, origin: string, visible: bool)

  const NO_CONTENT := Content("", KText, "", 0, 0, false)
  const NO_CURRENT := CurrentClip("", KText, 0, "", NO_CONTENT, "", false)

  /** The zero time. Clip time stamps are later than this. */
  const ZERO_TIME: int := 0

  /** The fields of a daemon that clip handling reads and writes. */
  datatype Host = Host(origin: string, safeMode: bool, seen: seq<string>, lastTS: int, current: CurrentClip)

  function FreshHost(origin: string): Host {
    Host(origin, false, [], ZERO_TIME, NO_CURRENT)
  }

  /** A clip handed to the SSH sync runtime. */
  datatype Publication = Publication(content: Content, origin: string, skipOrigin: string)

  /** Which texts name a file of the image store. */
  type StorePaths = string -> bool

  predicate IsPathText(paths: StorePaths, c: Content) {
    c.kind.KText? && paths(TrimSpace(c.bytes))
  }

  predicate IsEcho(cur: CurrentClip, c: Content) {
    cur.id != "" &&
    ((c.kind == cur.kind && c.hash == cur.hash) ||
     (cur.kind.KImage? && c.kind.KText? && TrimSpace(c.bytes) == cur.imagePath))
  }

  /** Does a poll that read this content, with a fresh ID, take it as a new copy? */
  predicate PollTakes(h: Host, paths: StorePaths, read: Option<Content>, minted: string) {
    && !h.safeMode
    && read.Some? && read.value.bytes != ""
    && !IsPathText(paths, read.value)
    && !IsEcho(h.current, read.value)
    && minted != ""
  }

  /** The path recorded for an image; saving may fail, which only loses the path. */
  function PolledPath(c: Content, saved: Option<string>): string {
    if !c.concealed && c.kind.KImage? && saved.Some? then saved.value else ""
  }

  function Polled(h: Host, paths: StorePaths, read: Option<Content>, minted: string, saved: Option<string>): Host {
    if !PollTakes(h, paths, read, minted) then h
    else
      var c := read.value.(id := minted);
      h.(seen := Recorded(h.seen, minted),
         lastTS := c.ts,
         current := CurrentClip(minted, c.kind, c.hash, PolledPath(c, saved), c, h.origin, !c.concealed))
  }

  function PollPublishes(h: Host, paths: StorePaths, read: Option<Content>, minted: string): Option<Publication> {
    if PollTakes(h, paths, read, minted) && !read.value.concealed
    then Some(Publication(read.value.(id := minted), h.origin, ""))
    else None
  }

  /** Is a received clip looked at beyond the echo and identity tests? */
  predicate Considered(h: Host, paths: StorePaths, c: Content) {
    && !h.safeMode
    && !IsPathText(paths, c)
    && !IsEcho(h.current, c)
    && c.id != ""
    && c.id !in h.seen
  }

  /** Last write wins: anything not older than the last stamp is accepted. */
  predicate Accepts(h: Host, paths: StorePaths, c: Content) {
    && Considered(h, paths, c)
    && !c.concealed
    && (h.lastTS == ZERO_TIME || c.ts >= h.lastTS)
  }

  /** saved is the image store path (absent when saving failed), wrote tells
      whether the local clipboard took the clip. */
  function Received(h: Host, paths: StorePaths, c: Content, origin: string, saved: Option<string>, wrote: bool): Host {
    if Accepts(h, paths, c) then
      var h' := h.(seen := Recorded(h.seen, c.id), lastTS := c.ts);
      if (c.kind.KImage? && saved.None?) || !wrote then h'
      else h'.(current := CurrentClip(c.id, c.kind, c.hash,
                 if c.kind.KImage? then saved.value else "", c, origin, true))
    else if Considered(h, paths, c) && c.concealed then h.(seen := Recorded(h.seen, c.id))
    else h
  }

  function ReceivePublishes(h: Host, paths: StorePaths, c: Content, origin: string, saved: Option<string>): Option<Publication> {
    if Accepts(h, paths, c) && !(c.kind.KImage? && saved.None?)
    then Some(Publication(c, origin, origin))
    else None
  }

  /** Restoring a history entry: content stamped now, imagePath from the entry. */
  function Restored(h: Host, c: Content, imagePath: string, minted: string, wrote: bool): Host {
    if minted == "" then h
    else
      var c' := c.(id := minted);
      var h' := h.(seen := Recorded(h.seen, minted), lastTS := c.ts);
      if !wrote then h'
      else h'.(current := CurrentClip(minted, c.kind, c.hash,
                 if c.kind.KImage? then imagePath else "", c', h.origin, true))
  }

  /** What GET current shows: the visible current clip and its origin. */
  function CurrentPayload(h: Host): Option<(Content, string)> {
    if !h.current.visible || h.current.content.id == "" then None
    else Some((h.current.content, h.current.origin))
  }

  class Daemon {
    const origin: string
    const safeMode: bool
    const seen: SeenSet
    var lastTS: int
    var current: CurrentClip

    ghost function State(): Host
      reads this, seen
    {
      Host(origin, safeMode, seen.order, lastTS, current)
    }

    ghost predicate Valid()
      reads this, seen
    {
      seen.Valid()
    }

    constructor (origin: string, safeMode: bool)
      ensures Valid() && fresh(seen)
      ensures State() == FreshHost(origin).(safeMode := safeMode)
    {
      this.origin := origin;
      this.safeMode := safeMode;
      seen := new SeenSet();
      lastTS := ZERO_TIME;
      current := NO_CURRENT;
    }

    method PollOnce(paths: StorePaths, read: Option<Content>, minted: string, saved: Option<string>)
      returns (changed: bool, publication: Option<Publication>)
      requires Valid()
      modifies this, seen
      ensures Valid()
      ensures State() == Polled(old(State()), paths, read, minted, saved)
      ensures changed <==> PollTakes(old(State()), paths, read, minted)
      ensures publication == PollPublishes(old(State()), paths, read, minted)
    {
      changed, publication := false, None;
      if safeMode || read.None? || read.value.bytes == "" {
        return;
      }
      var c := read.value;
      if IsPathText(paths, c) || IsEcho(current, c) {
        return;
      }
      c := c.(id := minted);
      if c.id == "" {
        return;
      }
      seen.Add(c.id);
      lastTS := c.ts;
      var imagePath := "";
      if !c.concealed {
        if c.kind.KImage? && saved.Some? {
          imagePath := saved.value;
        }
      }
      current := CurrentClip(c.id, c.kind, c.hash, imagePath, c, origin, !c.concealed);
      changed := true;
      if !c.concealed {
        publication := Some(Publication(c, origin, ""));
      }
    }

    method OnReceive(paths: StorePaths, c: Content, from: string, saved: Option<string>, wrote: bool)
      returns (publication: Option<Publication>)
      requires Valid()
      modifies this, seen
      ensures Valid()
      ensures State() == Received(old(State()), paths, c, from, saved, wrote)
      ensures publication == ReceivePublishes(old(State()), paths, c, from, saved)
    {
      publication := None;
      if safeMode || IsPathText(paths, c) || IsEcho(current, c) || c.id == "" {
        return;
      }
      var known := seen.Has(c.id);
      if known {
        return;
      }
      if c.concealed {
        seen.Add(c.id);
        return;
      }
      if lastTS != ZERO_TIME && c.ts < lastTS {
        return;
      }
      seen.Add(c.id);
      lastTS := c.ts;
      var imagePath := "";
      if c.kind.KImage? {
        if saved.None? {
          return;
        }
        imagePath := saved.value;
      }
      if wrote {
        current := CurrentClip(c.id, c.kind, c.hash, imagePath, c, from, true);
      }
      publication := Some(Publication(c, from, from));
    }

    method Restore(c: Content, imagePath: string, minted: string, wrote: bool)
      returns (publication: Option<Publication>)
      requires Valid()
      modifies this, seen
      ensures Valid()
      ensures State() == Restored(old(State()), c, imagePath, minted, wrote)
      ensures publication == if minted == "" then None else Some(Publication(c.(id := minted), origin, ""))
    {
      if minted == "" {
        return None;
      }
      seen.Add(minted);
      lastTS := c.ts;
      if wrote {
        current := CurrentClip(minted, c.kind, c.hash, if c.kind.KImage? then imagePath else "", c.(id := minted), origin, true);
      }
      return Some(Publication(c.(id := minted), origin, ""));
    }
  }

  /** What receiving needs besides the decision to accept: an image is saved and
      the clipboard takes the clip. */
  predicate Saves(c: Content, saved: Option<string>) {
    c.kind.KImage? ==> saved.Some?
  }

  /** Two hosts that consider each other's current clip, text or image, agree
      after the exchange exactly when the stamps differ: at equal stamps each
      adopts the other's clip. */
  lemma ExchangeAgreesIffStampsDiffer(a: Host, b: Host, paths: StorePaths, savedA: Option<string>, savedB: Option<string>)
    requires Holds(a) && Holds(b)
    requires Considered(a, paths, b.current.content) && Considered(b, paths, a.current.content)
    requires Saves(b.current.content, savedA) && Saves(a.current.content, savedB)
    ensures
      var a' := Received(a, paths, b.current.content, b.current.origin, savedA, true);
      var b' := Received(b, paths, a.current.content, a.current.origin, savedB, true);
      && (a'.current.content == b'.current.content <==> a.lastTS != b.lastTS)
      && (a.lastTS == b.lastTS ==> a'.current.content == b.current.content && b'.current.content == a.current.content)
  {
    assert a.current.content != b.current.content;
  }

  /** Two fresh hosts copy different texts at one instant and exchange them: each
      ends with the other's text, and exchanging again changes nothing. */
  lemma EqualStampsSwap(paths: StorePaths)
    requires !paths(TrimSpace("x")) && !paths(TrimSpace("y"))
    ensures
      var x, y := Content("", KText, "x", 1, 1_000, false), Content("", KText, "y", 2, 1_000, false);
      var a := Polled(FreshHost("alpha"), paths, Some(x), "clip-a", None);
      var b := Polled(FreshHost("beta"), paths, Some(y), "clip-b", None);
      var a' := Received(a, paths, b.current.content, "beta", None, true);
      var b' := Received(b, paths, a.current.content, "alpha", None, true);
      && a'.current.content == b.current.content && b'.current.content == a.current.content
      && a'.current.content.bytes == "y" && b'.current.content.bytes == "x"
      && Received(a', paths, b'.current.content, "alpha", None, true) == a'
      && Received(b', paths, a'.current.content, "beta", None, true) == b'
  {
    var x, y := Content("", KText, "x", 1, 1_000, false), Content("", KText, "y", 2, 1_000, false);
    var a := Polled(FreshHost("alpha"), paths, Some(x), "clip-a", None);
    var b := Polled(FreshHost("beta"), paths, Some(y), "clip-b", None);
    assert PollTakes(FreshHost("alpha"), paths, Some(x), "clip-a") && PollTakes(FreshHost("beta"), paths, Some(y), "clip-b");
    assert a.seen == ["clip-a"] && b.seen == ["clip-b"];
    var a' := Received(a, paths, b.current.content, "beta", None, true);
    var b' := Received(b, paths, a.current.content, "alpha", None, true);
    assert Accepts(a, paths, b.current.content) && Accepts(b, paths, a.current.content);
    assert a'.seen == ["clip-a", "clip-b"] && b'.seen == ["clip-b", "clip-a"];
    assert "clip-a" == a'.seen[0] && "clip-b" == b'.seen[0];
  }

  /** The host's current clip is a plain visible clip carrying the last stamp. */
  ghost predicate Holds(h: Host) {
    && h.current.id != ""
    && h.current.content.id == h.current.id
    && h.current.content.kind == h.current.kind
    && h.current.content.hash == h.current.hash
    && !h.current.content.concealed
    && h.current.visible
    && h.current.content.ts == h.lastTS > ZERO_TIME
  }
}
