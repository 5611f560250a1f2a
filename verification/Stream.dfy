/** The newline-framed stream: framing, the sequence check, and sizes
    (internal/transport/ssh_stream.go). Bytes are numbers; JSON encoding and
    opening an envelope are given. */
module Streams {
  import opened Wrappers

  type Bytes = seq<nat>

  const NEWLINE: nat := 10
  const MAX_FRAME_BYTES: nat := 90 * 1024 * 1024
  const MAX_PAYLOAD_BYTES: nat := 64 * 1024 * 1024

  // ---- lines ----

  /** The offset of the first newline. */
  function NewlineAt(input: Bytes): (at: Option<nat>)
    ensures at.Some? ==> at.value < |input|
  {
    if input == [] then None
    else if input[0] == NEWLINE then Some(0)
    else match NewlineAt(input[1..]) case None => None case Some(n) => Some(n + 1)
  }

  datatype Line = GotLine(line: Bytes) | TooLarge | UnexpectedEOF

  /** The next line of the input, as if it were read in one piece. */
  function NextLine(input: Bytes, max: nat): Line {
    match NewlineAt(input)
    case Some(n) => if n <= max then GotLine(input[..n + 1]) else TooLarge
    case None => if |input| <= max then UnexpectedEOF else TooLarge
  }

  lemma {:induction false} NewlineAtIs(input: Bytes)
    ensures match NewlineAt(input)
            case Some(n) => n < |input| && input[n] == NEWLINE && forall i :: 0 <= i < n ==> input[i] != NEWLINE
            case None => forall i :: 0 <= i < |input| ==> input[i] != NEWLINE
  {
    if input != [] {
      NewlineAtIs(input[1..]);
      assert forall i :: 0 < i < |input| ==> input[i] == input[1..][i - 1];
    }
  }

  lemma NewlineIsFirst(input: Bytes, n: nat)
    requires n < |input| && input[n] == NEWLINE && forall i :: 0 <= i < n ==> input[i] != NEWLINE
    ensures NewlineAt(input) == Some(n)
  {
    NewlineAtIs(input);
  }

  function PayloadLen(line: Bytes): nat {
    if line != [] && line[|line| - 1] == NEWLINE then |line| - 1 else |line|
  }

  // ---- the reader ----

  datatype Status = Delimited | BufferFull | EndOfInput

  /** The rest of the input, and how much the reader's buffer takes at call k. */
  class Reader {
    var input: Bytes
    var calls: nat
    const room: nat -> nat

    constructor (input: Bytes, room: nat -> nat)
      ensures this.input == input && this.room == room
    {
      this.input, this.room := input, room;
      calls := 0;
    }

    /** Up to the next newline, as far as the buffer goes. */
    method ReadSlice() returns (piece: Bytes, status: Status)
      modifies this`input, this`calls
      ensures old(input) == piece + input
      ensures forall i :: 0 <= i < |piece| - 1 ==> piece[i] != NEWLINE
      ensures status.Delimited? <==> piece != [] && piece[|piece| - 1] == NEWLINE
      ensures status.BufferFull? ==> piece != []
      ensures status.EndOfInput? ==> input == []
    {
      var limit := room(calls) + 1;
      calls := calls + 1;
      ghost var before := input;
      var n := 0;
      while n < limit && n < |input|
        invariant n <= limit && n <= |input| && input == before
        invariant forall i :: 0 <= i < n ==> input[i] != NEWLINE
      {
        n := n + 1;
        if input[n - 1] == NEWLINE {
          piece, input := input[..n], input[n..];
          return piece, Delimited;
        }
      }
      status := if n == limit then BufferFull else EndOfInput;
      piece, input := input[..n], input[n..];
    }

    /** Pieces are collected until the newline; the result does not depend on
        where the buffer cut them. */
    method ReadFrameLine(max: nat) returns (result: Line)
      modifies this`input, this`calls
      ensures result == NextLine(old(input), max)
      ensures result.GotLine? ==> old(input) == result.line + input
    {
      ghost var start := input;
      var line: Bytes := [];
      while true
        invariant start == line + input
        invariant forall i :: 0 <= i < |line| ==> line[i] != NEWLINE
        invariant |line| <= max
        decreases |input|
      {
        var piece, status := ReadSlice();
        ghost var before := line;
        Regrouped(start, before, piece, input);
        CollectedLine(start, before, piece, input, max);
        line := line + piece;
        if PayloadLen(line) > max {
          return TooLarge;
        }
        if status.Delimited? {
          return GotLine(line);
        }
        if status.EndOfInput? {
          return UnexpectedEOF;
        }
      }
    }
  }

  lemma Regrouped(start: Bytes, before: Bytes, piece: Bytes, rest: Bytes)
    requires start == before + (piece + rest)
    ensures start == (before + piece) + rest
  {
  }

  /** What the line collected so far says about the next line. */
  lemma CollectedLine(start: Bytes, before: Bytes, piece: Bytes, rest: Bytes, max: nat)
    requires start == before + (piece + rest) && |before| <= max
    requires forall i :: 0 <= i < |before| ==> before[i] != NEWLINE
    requires forall i :: 0 <= i < |piece| - 1 ==> piece[i] != NEWLINE
    ensures var line := before + piece;
      && (PayloadLen(line) > max ==> NextLine(start, max) == TooLarge)
      && (PayloadLen(line) <= max && piece != [] && piece[|piece| - 1] == NEWLINE ==> NextLine(start, max) == GotLine(line))
      && (PayloadLen(line) <= max && rest == [] && !(piece != [] && piece[|piece| - 1] == NEWLINE) ==> NextLine(start, max) == UnexpectedEOF)
  {
    var line := before + piece;
    NewlineAtIs(start);
    if piece != [] && piece[|piece| - 1] == NEWLINE {
      NewlineIsFirst(start, |line| - 1);
      assert start[..|line|] == line;
    } else if rest == [] {
      assert start == line;
    }
  }

  // ---- frames ----

  datatype Frame =
    | HelloFrame(hello: Bytes)
    | StateFrame(seqNo: nat, sender: string, clip: ClipField, nullReason: string)
    | AckFrame(ackSeq: nat, id: string, status: string)
    | ErrorFrame(code: string)

  /** The clip field of a state frame: left out, null, or an envelope. */
  datatype ClipField = NoClip | NullClip | Sealed(envelope: Envelope)

  /** An envelope and what opening it gives: the payload, or nothing. */
  datatype Envelope = Envelope(id: string, payload: Option<Bytes>)

  /** State frames are always written with their clip field. */
  predicate Writable(frame: Frame) {
    frame.StateFrame? ==> !frame.clip.NoClip?
  }

  /** JSON encoding and decoding of frames. */
  datatype Codec = Codec(encode: Frame -> Bytes, decode: Bytes -> Option<Frame>) {
    ghost predicate WellFormed() {
      && (forall f, i :: 0 <= i < |encode(f)| ==> encode(f)[i] != NEWLINE)
      && (forall f :: Writable(f) ==> decode(encode(f) + [NEWLINE]) == Some(f))
    }
  }

  /** What the writer puts on the wire; a frame too large is refused. */
  function Written(codec: Codec, frame: Frame): Option<Bytes> {
    if !Writable(frame) || |codec.encode(frame)| > MAX_FRAME_BYTES then None else Some(codec.encode(frame) + [NEWLINE])
  }

  /** Frames written back to back. */
  function Wire(codec: Codec, frames: seq<Frame>): Bytes
    requires forall i :: 0 <= i < |frames| ==> Written(codec, frames[i]).Some?
  {
    if frames == [] then [] else Written(codec, frames[0]).value + Wire(codec, frames[1..])
  }

  lemma FirstLineOfWire(codec: Codec, frame: Frame, rest: Bytes)
    requires codec.WellFormed() && Written(codec, frame).Some?
    ensures NextLine(Written(codec, frame).value + rest, MAX_FRAME_BYTES) == GotLine(Written(codec, frame).value)
  {
    var data := codec.encode(frame);
    var all := Written(codec, frame).value + rest;
    assert all[|data|] == NEWLINE;
    assert forall i :: 0 <= i < |data| ==> all[i] == data[i];
    NewlineIsFirst(all, |data|);
    assert all[..|data| + 1] == data + [NEWLINE];
  }

  /** Any number of frames written back to back are recovered exactly, wherever
      the reader's buffer cuts them. */
  method ReadFrames(codec: Codec, frames: seq<Frame>, rest: Bytes, reader: Reader) returns (got: seq<Frame>)
    requires codec.WellFormed() && forall i :: 0 <= i < |frames| ==> Written(codec, frames[i]).Some?
    requires reader.input == Wire(codec, frames) + rest
    modifies reader`input, reader`calls
    ensures got == frames && reader.input == rest
  {
    got := [];
    for i := 0 to |frames|
      invariant got == frames[..i]
      invariant reader.input == Wire(codec, frames[i..]) + rest
    {
      var frame := frames[i];
      ghost var later := Wire(codec, frames[i + 1..]) + rest;
      assert frames[i..][0] == frame && frames[i..][1..] == frames[i + 1..];
      assert reader.input == Written(codec, frame).value + later;
      FirstLineOfWire(codec, frame, later);
      ghost var all := reader.input;
      var result := reader.ReadFrameLine(MAX_FRAME_BYTES);
      assert result.line == Written(codec, frame).value;
      assert reader.input == all[|result.line|..] && later == all[|result.line|..];
      got := got + [codec.decode(result.line).value];
      assert frames[..i + 1] == frames[..i] + [frame];
    }
  }

  // ---- the sequence check ----

  predicate NullReasonOk(reason: string) {
    reason == "no_visible_current" || reason == "concealed_clear" || reason == "user_cleared_current"
  }

  /** A state frame's content is acceptable, whatever its number. */
  predicate ContentOk(frame: Frame, remote: string) {
    && frame.StateFrame? && frame.sender == remote
    && match frame.clip
       case NoClip => false
       case NullClip => NullReasonOk(frame.nullReason)
       case Sealed(e) => e.payload.Some? && |e.payload.value| <= MAX_PAYLOAD_BYTES
  }

  class Receiver {
    const remote: string
    var nextSeq: nat

    constructor (remote: string)
      ensures this.remote == remote && nextSeq == 1
    {
      this.remote := remote;
      nextSeq := 1;
    }

    /** A state frame is accepted exactly when it is the next one and its content
        is acceptable; anything else leaves the expected number alone. */
    method Accept(frame: Frame) returns (ok: bool)
      modifies this`nextSeq
      ensures ok <==> ContentOk(frame, remote) && frame.seqNo == old(nextSeq) && frame.seqNo != 0
      ensures nextSeq == if ok then old(nextSeq) + 1 else old(nextSeq)
    {
      if !frame.StateFrame? || frame.seqNo == 0 || frame.seqNo != nextSeq || frame.sender != remote {
        return false;
      }
      if frame.clip.NoClip? {
        return false;
      }
      if frame.clip.NullClip? {
        if !NullReasonOk(frame.nullReason) {
          return false;
        }
      } else {
        var payload := frame.clip.envelope.payload;
        if payload.None? || |payload.value| > MAX_PAYLOAD_BYTES {
          return false;
        }
      }
      nextSeq := nextSeq + 1;
      return true;
    }
  }

  /** The number expected after some frames. */
  function Expected(next: nat, frames: seq<Frame>, remote: string): nat
    decreases |frames|
  {
    if frames == [] then next
    else
      var ok := ContentOk(frames[0], remote) && frames[0].seqNo == next && next != 0;
      Expected(if ok then next + 1 else next, frames[1..], remote)
  }

  /** Numbered one after the other, with acceptable content. */
  predicate Numbered(frames: seq<Frame>, from: nat, remote: string) {
    forall i :: 0 <= i < |frames| ==> ContentOk(frames[i], remote) && frames[i].seqNo == from + i
  }

  /** The check never fires on the daemon's own numbering: every frame is
      accepted, so the number expected advances by the number of frames. */
  lemma {:induction false} SenderIsAccepted(frames: seq<Frame>, from: nat, remote: string)
    requires from > 0 && Numbered(frames, from, remote)
    ensures Expected(from, frames, remote) == from + |frames|
    decreases |frames|
  {
    if frames != [] {
      assert frames[0].seqNo == from;
      assert Numbered(frames[1..], from + 1, remote) by {
        assert forall i :: 0 <= i < |frames[1..]| ==> frames[1..][i] == frames[i + 1];
      }
      SenderIsAccepted(frames[1..], from + 1, remote);
    }
  }

  /** Conversely, all of an attempt's frames are accepted only if they are
      numbered without gap or repeat. */
  lemma {:induction false} AcceptedIsNumbered(frames: seq<Frame>, from: nat, remote: string)
    ensures Expected(from, frames, remote) <= from + |frames|
    ensures Expected(from, frames, remote) == from + |frames| ==> Numbered(frames, from, remote)
    decreases |frames|
  {
    if frames != [] {
      var ok := ContentOk(frames[0], remote) && frames[0].seqNo == from && from != 0;
      AcceptedIsNumbered(frames[1..], if ok then from + 1 else from, remote);
      if ok && Numbered(frames[1..], from + 1, remote) {
        assert forall i :: 0 < i < |frames| ==> frames[i] == frames[1..][i - 1];
      }
    }
  }

  /** The state frames among all frames. */
  function StateFrames(frames: seq<Frame>): seq<Frame> {
    if frames == [] then []
    else (if frames[0].StateFrame? then [frames[0]] else []) + StateFrames(frames[1..])
  }

  /** Acks and other frames in between do not touch the number expected. */
  lemma {:induction false} OtherFramesDoNotCount(frames: seq<Frame>, from: nat, remote: string)
    ensures Expected(from, frames, remote) == Expected(from, StateFrames(frames), remote)
    decreases |frames|
  {
    if frames != [] {
      var ok := ContentOk(frames[0], remote) && frames[0].seqNo == from && from != 0;
      OtherFramesDoNotCount(frames[1..], if ok then from + 1 else from, remote);
      if frames[0].StateFrame? {
        assert ([frames[0]] + StateFrames(frames[1..]))[1..] == StateFrames(frames[1..]);
      } else {
        assert [] + StateFrames(frames[1..]) == StateFrames(frames[1..]);
      }
    }
  }

  /** One attempt end to end: frames numbered by the sender and written back to
      back are all recovered and all accepted, wherever the buffer cuts them. */
  method ReceiveAttempt(codec: Codec, frames: seq<Frame>, rest: Bytes, reader: Reader, receiver: Receiver) returns (accepted: nat)
    requires codec.WellFormed() && forall i :: 0 <= i < |frames| ==> Written(codec, frames[i]).Some?
    requires reader.input == Wire(codec, frames) + rest
    requires receiver.nextSeq > 0 && Numbered(frames, receiver.nextSeq, receiver.remote)
    modifies reader`input, reader`calls, receiver`nextSeq
    ensures accepted == |frames| && receiver.nextSeq == old(receiver.nextSeq) + |frames| && reader.input == rest
  {
    var got := ReadFrames(codec, frames, rest, reader);
    accepted := 0;
    for i := 0 to |got|
      invariant accepted == i && receiver.nextSeq == old(receiver.nextSeq) + i
      invariant reader.input == rest
    {
      var ok := receiver.Accept(got[i]);
      if ok {
        accepted := accepted + 1;
      }
    }
  }

  // ---- sizes ----

  /** The place of '=' after the 64 characters of the alphabet. */
  const PAD: nat := 64

  predicate Octets(data: Bytes) {
    forall i :: 0 <= i < |data| ==> data[i] < 256
  }

  /** Base64 (section 4 of RFC 4648): four characters, given by their places in
      the alphabet, for every three bytes, the last group padded. */
  function Base64(data: Bytes): (text: Bytes)
    requires Octets(data)
    decreases |data|
  {
    if data == [] then []
    else if |data| == 1 then [data[0] / 4, data[0] % 4 * 16, PAD, PAD]
    else if |data| == 2 then [data[0] / 4, data[0] % 4 * 16 + data[1] / 16, data[1] % 16 * 4, PAD]
    else [data[0] / 4, data[0] % 4 * 16 + data[1] / 16, data[1] % 16 * 4 + data[2] / 64, data[2] % 64] + Base64(data[3..])
  }

  /** The bytes that a text encodes. */
  function FromBase64(text: Bytes): (data: Bytes)
    decreases |text|
  {
    if |text| < 4 then []
    else
      var first, second, third := text[0] * 4 + text[1] / 16, text[1] % 16 * 16 + text[2] / 4, text[2] % 4 * 64 + text[3];
      if text[2] == PAD then [first] else if text[3] == PAD then [first, second] else [first, second, third] + FromBase64(text[4..])
  }

  lemma GroupDecodes(a: nat, b: nat, c: nat)
    requires a < 256 && b < 256 && c < 256
    ensures var w, x, y, z := a / 4, a % 4 * 16 + b / 16, b % 16 * 4 + c / 64, c % 64;
      && w * 4 + x / 16 == a && x % 16 * 16 + y / 4 == b && y % 4 * 64 + z == c
      && w < PAD && x < PAD && y < PAD && z < PAD
  {
  }

  /** Decoding undoes encoding, whatever the padding. */
  lemma {:induction false} Base64RoundTrip(data: Bytes)
    requires Octets(data)
    ensures FromBase64(Base64(data)) == data
    decreases |data|
  {
    if data != [] {
      var b, c := if |data| > 1 then data[1] else 0, if |data| > 2 then data[2] else 0;
      GroupDecodes(data[0], b, c);
      if |data| > 2 {
        var group := [data[0] / 4, data[0] % 4 * 16 + b / 16, b % 16 * 4 + c / 64, c % 64];
        assert (group + Base64(data[3..]))[4..] == Base64(data[3..]);
        Base64RoundTrip(data[3..]);
        assert data == [data[0], b, c] + data[3..];
      }
    }
  }

  lemma {:induction false} Base64Size(data: Bytes)
    requires Octets(data)
    ensures |Base64(data)| == 4 * ((|data| + 2) / 3)
    decreases |data|
  {
    if |data| >= 3 {
      Base64Size(data[3..]);
    }
  }

  const SEAL_OVERHEAD: nat := 16

  /** The size of a state frame: the sealed payload in base64, and the rest. */
  function FrameSize(payload: nat, others: nat): nat {
    4 * ((payload + SEAL_OVERHEAD + 2) / 3) + others
  }

  /** A clip within the payload limit fits a frame when its other fields take at
      most 4 MiB; the largest clip leaves them exactly this much room. */
  lemma ClipFits(sealed: Bytes, payload: nat, others: nat)
    requires payload <= MAX_PAYLOAD_BYTES && |sealed| == payload + SEAL_OVERHEAD && Octets(sealed)
    ensures |Base64(sealed)| + others == FrameSize(payload, others)
    ensures others <= 4 * 1024 * 1024 ==> |Base64(sealed)| + others <= MAX_FRAME_BYTES
    ensures FrameSize(MAX_PAYLOAD_BYTES, others) <= MAX_FRAME_BYTES <==> others <= 4_893_332
  {
    Base64Size(sealed);
  }
}
