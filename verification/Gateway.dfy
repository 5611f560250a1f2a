/** The gateway that pushes the local current clip to a connected peer
    (internal/cli/ssh_gateway.go). */
module Gateways {
  import opened Wrappers
  import opened Hostnames
  import opened Daemons

  const MAX_PAYLOAD_BYTES: nat := 67108864  // 64 << 20

  /** A clip as it travels: content and the host it was copied on. */
  datatype Clip = Clip(content: Content, origin: string)

  /** What polling the local current clip would push to the peer, if anything. */
  function DueClip(payload: Option<(Content, string)>, peer: string, sent: set<string>): Option<Clip> {
    match payload
    case None => None
    case Some((content, origin)) =>
      if content.id == "" || HostsMatch(origin, peer) || |content.bytes| > MAX_PAYLOAD_BYTES || content.id in sent
      then None
      else Some(Clip(content, origin))
  }

  datatype StateFrame = StateFrame(seqNo: nat, clip: Clip)

  class Gateway {
    const peer: string
    var seqNo: nat
    var sent: set<string>

    constructor (peer: string)
      ensures this.peer == peer && seqNo == 0 && sent == {}
    {
      this.peer := peer;
      seqNo := 0;
      sent := {};
    }

    /** The sequence number advances before the write and stays advanced when
        the write fails; the clip counts as sent only after a write that worked. */
    method PublishCurrent(payload: Option<(Content, string)>, writeOk: bool) returns (frame: Option<StateFrame>)
      modifies this
      ensures
        match DueClip(payload, peer, old(sent))
        case None => frame == None && seqNo == old(seqNo) && sent == old(sent)
        case Some(clip) =>
          && seqNo == old(seqNo) + 1
          && (if writeOk then frame == Some(StateFrame(seqNo, clip)) && sent == old(sent) + {clip.content.id}
              else frame == None && sent == old(sent))
      // one push per clip and stream
      ensures frame.Some? ==> frame.value.clip.content.id !in old(sent)
    {
      frame := None;
      if payload.None? {
        return;
      }
      var (content, origin) := payload.value;
      if content.id == "" || HostsMatch(origin, peer) {
        return;
      }
      if |content.bytes| > MAX_PAYLOAD_BYTES {
        return;
      }
      if content.id in sent {
        return;
      }
      seqNo := seqNo + 1;
      if !writeOk {
        return;
      }
      frame := Some(StateFrame(seqNo, Clip(content, origin)));
      sent := sent + {content.id};
    }
  }
}
