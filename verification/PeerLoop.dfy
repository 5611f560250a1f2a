/** One connection attempt of a peer session: the sequence counter, the in-flight
    map and the ack timer of its main loop (internal/daemon/ssh_session.go). Each
    method does what one or two steps of Sessions do. */
module PeerLoops {
  import opened Wrappers
  import opened Daemons
  import opened Gateways
  import opened SyncManagers
  import opened Sessions

  /** Beginning to send and then the outcome of the write, as the two steps of
      Sessions; which phase follows a good write is left to the caller. A session
      that is no longer current counts the number it did not use. */
  function Sent(s: Shared, a: Attempt, sid: nat, writeOk: bool, error: string): (Shared, Attempt)
    requires sid in s.table && a.phase.Sending?
  {
    var s1, a1 := SharedAfter(s, a, BeginSend(sid)), AttemptAfter(s, a, BeginSend(sid));
    if !IsCurrent(s, sid) then (s1, a.(seqNo := a.seqNo + 1, phase := Failing(error)))
    else
      var step := if writeOk then WriteOk(sid) else WriteFailed(sid, error);
      (SharedAfter(s1, a1, step), AttemptAfter(s1, a1, step).(phase := if writeOk then Looping else Failing(error)))
  }

  /** The start of the main loop as steps of Sessions: what is pending is sent, and
      the same clip waiting in the queue is dropped. */
  function PendingSent(s: Shared, a: Attempt, sid: nat, writeOk: bool, error: string): (Shared, Attempt)
    requires sid in s.table && a.phase.Starting?
  {
    var read := AttemptAfter(s, a, ReadPending(sid));
    if read.phase.Looping? then (s, read)
    else
      var (s1, a1) := Sent(s, read, sid, writeOk, error);
      if a1.phase.Looping? && sid in s1.table then (SharedAfter(s1, a1.(phase := Draining(read.phase.clip)), Drain(sid)), a1)
      else (s1, a1)
  }

  lemma PendingSentIs(s: Shared, a: Attempt, sid: nat, writeOk: bool, error: string, s1: Shared, a1: Attempt)
    requires sid in s.table && a.phase.Starting? && s.table[sid].peer.id in s.pending && sid in s1.table
    requires (s1, a1) == Sent(s, a.(phase := Sending(s.pending[s.table[sid].peer.id], true)), sid, writeOk, error)
    ensures PendingSent(s, a, sid, writeOk, error) ==
      if a1.phase.Looping? then (DrainedOf(s1, sid, s.pending[s.table[sid].peer.id]), a1) else (s1, a1)
  {
  }

  /** The queue without the same clip. */
  function DrainedOf(s: Shared, sid: nat, clip: Clip): Shared
    requires sid in s.table
  {
    if s.table[sid].slot.Some? && s.table[sid].slot.value.content.id == clip.content.id
    then s.(table := s.table[sid := s.table[sid].(slot := None)]) else s
  }

  lemma SentCurrent(s: Shared, a: Attempt, sid: nat, writeOk: bool, error: string)
    requires sid in s.table && a.phase.Sending? && IsCurrent(s, sid)
    ensures var id, clip := s.table[sid].peer.id, a.phase.clip;
      var s1 := MarkPending(s, id, true);
      Sent(s, a, sid, writeOk, error) ==
        if writeOk then (s1, Attempt(Looping, a.seqNo + 1, a.inflight[a.seqNo + 1 := clip], a.armed || a.inflight == map[], a.frames + [SentFrame(a.seqNo + 1, clip)]))
        else (if IsCurrent(s1, sid) then RememberedPending(s1, id, clip) else s1, a.(seqNo := a.seqNo + 1, phase := Failing(error)))
  {
  }

  class PeerLoop {
    const manager: SyncManager
    const sid: nat
    var seqNo: nat
    var inflight: map<nat, Clip>
    var armed: bool
    ghost var frames: seq<SentFrame>

    constructor (manager: SyncManager, sid: nat)
      ensures this.manager == manager && this.sid == sid
      ensures forall phase :: AsAttempt(phase) == NO_ATTEMPT.(phase := phase)
    {
      this.manager, this.sid := manager, sid;
      seqNo, inflight, armed, frames := 0, map[], false, [];
    }

    ghost function AsAttempt(phase: Phase): Attempt
      reads this
    {
      Attempt(phase, seqNo, inflight, armed, frames)
    }

    /** The timer starts only when nothing was in flight and it is not running. */
    method ArmTimerIfIdle(wasIdle: bool)
      modifies this`armed
      ensures armed == (old(armed) || (wasIdle && inflight != map[]))
    {
      if !wasIdle || inflight == map[] || armed {
        return;
      }
      armed := true;
    }

    /** A frame that was written is in flight. */
    method Written(clip: Clip)
      requires AttemptOk(AsAttempt(Failing(""))) && seqNo == |frames| + 1 && Fits(clip)
      modifies this
      ensures seqNo == old(seqNo) && inflight == old(inflight)[seqNo := clip] && armed && frames == old(frames) + [SentFrame(seqNo, clip)]
      ensures AttemptOk(AsAttempt(Looping))
    {
      var wasIdle := inflight == map[];
      inflight := inflight[seqNo := clip];
      frames := frames + [SentFrame(seqNo, clip)];
      assert seqNo in inflight;
      ArmTimerIfIdle(wasIdle);
    }

    /** Number the clip, mark it pending, write it; a frame that was written is in
        flight, one that was not is remembered. */
    method SendState(clip: Clip, first: bool, writeOk: bool, error: string) returns (ok: bool)
      requires manager.Valid() && sid in manager.table
      requires AttemptOk(AsAttempt(Sending(clip, first)))
      modifies this, manager
      ensures manager.Valid() && manager.table == old(manager.table)
      ensures ok <==> IsCurrent(old(manager.View()), sid) && writeOk && Fits(clip)
      ensures (manager.View(), AsAttempt(if ok then Looping else Failing(error))) ==
        Sent(old(manager.View()), old(AsAttempt(Sending(clip, first))), sid, writeOk && Fits(clip), error)
      ensures ok ==> AttemptOk(AsAttempt(Looping))
    {
      ghost var s, a := manager.View(), AsAttempt(Sending(clip, first));
      if IsCurrent(s, sid) {
        SentCurrent(s, a, sid, writeOk && Fits(clip), error);
      }
      seqNo := seqNo + 1;
      ok := manager.MarkPendingIfSessionCurrent(sid, true);
      if !ok {
        return;
      }
      if !writeOk || !Fits(clip) {
        manager.RememberPendingIfSessionCurrent(sid, clip);
        return false;
      }
      Written(clip);
    }

    /** An ack removes its number from the flight; the timer runs on exactly while
        something is left. */
    method OnAck(ack: Ack, now: int)
      requires manager.Valid() && sid in manager.table && AttemptOk(AsAttempt(Looping))
      modifies this, manager
      ensures manager.Valid()
      ensures manager.View() == SharedAfter(old(manager.View()), old(AsAttempt(Looping)), ReadAck(sid, ack, now))
      ensures AsAttempt(Looping) == AttemptAfter(old(manager.View()), old(AsAttempt(Looping)), ReadAck(sid, ack, now))
      ensures AttemptOk(AsAttempt(Looping))
    {
      AttemptStaysOk(manager.View(), AsAttempt(Looping), ReadAck(sid, ack, now));
      var rest, removed := manager.HandleAck(sid, inflight, ack, now);
      if removed {
        inflight := rest;
        armed := inflight != map[];
      }
    }

    /** The start of the main loop: send what is pending, then drop the same clip
        from the queue. A session that is no longer current stops here. */
    method SendPending(writeOk: bool, error: string) returns (ok: bool)
      requires manager.Valid() && sid in manager.table && AttemptOk(AsAttempt(Starting))
      modifies this, manager
      ensures manager.Valid()
      ensures var id := old(manager.table)[sid].peer.id;
        ok <==> id !in old(manager.pending) || (IsCurrent(old(manager.View()), sid) && writeOk && Fits(old(manager.pending)[id]))
      ensures (manager.View(), AsAttempt(if ok then Looping else Failing(error))) ==
        PendingSent(old(manager.View()), old(AsAttempt(Starting)), sid,
                    writeOk && (var id := old(manager.table)[sid].peer.id; id in old(manager.pending) ==> Fits(old(manager.pending)[id])), error)
      ensures ok ==> AttemptOk(AsAttempt(Looping))
    {
      var id := manager.table[sid].peer.id;
      if id !in manager.pending {
        return true;
      }
      var clip := manager.pending[id];
      ghost var s, a := manager.View(), AsAttempt(Starting);
      ok := SendState(clip, true, writeOk, error);
      ghost var s1, a1 := manager.View(), AsAttempt(if ok then Looping else Failing(error));
      PendingSentIs(s, a, sid, writeOk && Fits(clip), error, s1, a1);
      if ok {
        manager.DrainQueuedDuplicate(sid, clip);
        assert manager.View() == DrainedOf(s1, sid, clip);
      }
    }
  }
}
