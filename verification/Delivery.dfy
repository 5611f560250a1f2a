/** What the daemon's peer sessions put on a stream is what the receiving side
    accepts (internal/daemon/ssh_session.go, internal/transport/ssh_stream.go). */
module Deliveries {
  import opened Wrappers
  import opened Gateways
  import opened SyncManagers
  import Sessions
  import Streams

  /** Sealing a clip into an envelope that opens to a payload of the clip's size. */
  ghost predicate Seals(seal: Clip -> Streams.Envelope) {
    forall clip :: seal(clip).payload.Some? && |seal(clip).payload.value| == |clip.content.bytes|
  }

  /** A state frame as a session writes it. */
  function OnWire(sender: string, seal: Clip -> Streams.Envelope, f: Sessions.SentFrame): Streams.Frame {
    Streams.StateFrame(f.number, sender, Streams.Sealed(seal(f.clip)), "")
  }

  function AllOnWire(sender: string, seal: Clip -> Streams.Envelope, frames: seq<Sessions.SentFrame>): seq<Streams.Frame> {
    seq(|frames|, i requires 0 <= i < |frames| => OnWire(sender, seal, frames[i]))
  }

  /** In every run of the sessions, whatever is published, refreshed, acked or
      fails, the state frames of any attempt are numbered from 1 without gap or
      repeat, so the receiver's check never fires: it accepts each of them. */
  lemma AttemptIsAccepted(peers: seq<Peer>, run: seq<Sessions.World>, steps: seq<Sessions.Step>, n: nat, sid: nat,
                          sender: string, seal: Clip -> Streams.Envelope)
    requires Sessions.IsRun(peers, run, steps) && n < |run| && sid in run[n].attempts && Seals(seal)
    ensures var frames := AllOnWire(sender, seal, run[n].attempts[sid].frames);
      Streams.Numbered(frames, 1, sender) && Streams.Expected(1, frames, sender) == 1 + |frames|
  {
    var sent := run[n].attempts[sid].frames;
    var frames := AllOnWire(sender, seal, sent);
    Sessions.FramesAreNumbered(peers, run, steps, n, sid);
    forall i | 0 <= i < |frames|
      ensures Streams.ContentOk(frames[i], sender) && frames[i].seqNo == 1 + i
    {
      assert sent[i].number == i + 1 && Sessions.Fits(sent[i].clip);
    }
    Streams.SenderIsAccepted(frames, 1, sender);
  }

  /** The same with the session's acks for the other direction in between. */
  lemma StreamIsAccepted(peers: seq<Peer>, run: seq<Sessions.World>, steps: seq<Sessions.Step>, n: nat, sid: nat,
                         sender: string, seal: Clip -> Streams.Envelope, stream: seq<Streams.Frame>)
    requires Sessions.IsRun(peers, run, steps) && n < |run| && sid in run[n].attempts && Seals(seal)
    requires Streams.StateFrames(stream) == AllOnWire(sender, seal, run[n].attempts[sid].frames)
    ensures Streams.Expected(1, stream, sender) == 1 + |Streams.StateFrames(stream)|
  {
    AttemptIsAccepted(peers, run, steps, n, sid, sender, seal);
    Streams.OtherFramesDoNotCount(stream, 1, sender);
  }
}
