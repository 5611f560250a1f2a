/** Peer session goroutines running against the shared manager state, as a step
    relation (internal/daemon/ssh_session.go). */
module Sessions {
  import opened Wrappers
  import opened Daemons
  import opened Gateways
  import opened SyncManagers

  /** Where a session goroutine stands. Writing is between the pending mark and
      the outcome of the frame write; Looping is the select of the main loop. */
  datatype Phase =
    | Offline
    | Starting
    | Sending(clip: Clip, first: bool)
    | Writing(clip: Clip, first: bool)
    | Draining(clip: Clip)
    | Looping
    | Failing(error: string)

  /** A state frame as it went out. */
  datatype SentFrame = SentFrame(number: nat, clip: Clip)

  /** One connection attempt: sequence counter, clips awaiting an ack by number,
      the ack timer, and the state frames written so far. */
  datatype Attempt = Attempt(phase: Phase, seqNo: nat, inflight: map<nat, Clip>, armed: bool, frames: seq<SentFrame>)

  const NO_ATTEMPT := Attempt(Offline, 0, map[], false, [])

  datatype World = World(shared: Shared, attempts: map<nat, Attempt>)

  datatype Step =
    | Publish(clip: Clip, skip: string)
    | Refresh(next: seq<Peer>)
    | Start
    | Connect(sid: nat)
    | Connected(sid: nat, now: int)
    | ReadPending(sid: nat)
    | BeginSend(sid: nat)
    | WriteOk(sid: nat)
    | WriteFailed(sid: nat, error: string)
    | Drain(sid: nat)
    | Take(sid: nat)
    | ReadAck(sid: nat, ack: Ack, now: int)
    | ReadState(sid: nat, now: int)
    | AckTimeout(sid: nat)
    | Break(sid: nat, error: string)
    | Failed(sid: nat, quiet: bool, now: int)

  predicate BySession(step: Step) {
    !step.Publish? && !step.Refresh? && !step.Start?
  }

  ghost predicate Shaped(w: World) {
    WellFormed(w.shared) && w.attempts.Keys == w.shared.table.Keys
  }

  function Init(peers: seq<Peer>): World {
    World(EmptyShared(peers), map[])
  }

  /** The stream refuses to write larger clips. */
  predicate Fits(clip: Clip) {
    |clip.content.bytes| <= MAX_PAYLOAD_BYTES
  }

  predicate Enabled(w: World, step: Step) {
    BySession(step) ==>
      step.sid in w.shared.table && step.sid in w.attempts &&
      var a := w.attempts[step.sid];
      match step
      case Connect(_) => a.phase.Offline?
      case Connected(_, _) => a.phase.Offline?
      case ReadPending(_) => a.phase.Starting?
      case BeginSend(_) => a.phase.Sending?
      case WriteOk(_) => a.phase.Writing? && Fits(a.phase.clip)
      case WriteFailed(_, _) => a.phase.Writing?
      case Drain(_) => a.phase.Draining?
      case Take(_) => a.phase.Looping? && w.shared.table[step.sid].slot.Some?
      case ReadAck(_, _, _) => a.phase.Looping?
      case ReadState(_, _) => true   // the reader may outlive its attempt
      case AckTimeout(_) => a.phase.Looping? && a.armed
      case Break(_, _) => true       // starting or the handshake may fail too
      case Failed(_, _, _) => a.phase.Failing?
      case _ => true
  }

  /** Shared state after a step made by a session, given its attempt. */
  function SharedAfter(s: Shared, a: Attempt, step: Step): Shared
    requires BySession(step) && step.sid in s.table
  {
    var id := s.table[step.sid].peer.id;
    var current := IsCurrent(s, step.sid);
    match step
    case Connect(_) => if current then MarkConnecting(s, id) else s
    case Connected(_, now) => if current then MarkConnected(s, id, now) else s
    case BeginSend(_) => if current then MarkPending(s, id, true) else s
    case WriteFailed(_, _) => if current && a.phase.Writing? then RememberedPending(s, id, a.phase.clip) else s
    case Drain(sid) =>
      if a.phase.Draining? && s.table[sid].slot.Some? && s.table[sid].slot.value.content.id == a.phase.clip.content.id
      then s.(table := s.table[sid := s.table[sid].(slot := None)]) else s
    case Take(sid) => s.(table := s.table[sid := s.table[sid].(slot := None)])
    case ReadAck(sid, ack, now) => if ack.seqNo in a.inflight then AckedBy(s, sid, a.inflight[ack.seqNo], ack, now) else s
    case ReadState(_, now) => if current then MarkReceived(s, id, now) else s
    case Failed(_, quiet, now) => if current && !quiet && a.phase.Failing? then MarkError(s, id, a.phase.error, now) else s
    case _ => s
  }

  /** The attempt after a step made by its session. */
  function AttemptAfter(s: Shared, a: Attempt, step: Step): Attempt
    requires BySession(step) && step.sid in s.table
  {
    var id := s.table[step.sid].peer.id;
    var current := IsCurrent(s, step.sid);
    match step
    case Connected(_, _) => if current then NO_ATTEMPT.(phase := Starting) else a
    case ReadPending(_) => a.(phase := if id in s.pending then Sending(s.pending[id], true) else Looping)
    case BeginSend(_) =>
      if current && a.phase.Sending? then a.(seqNo := a.seqNo + 1, phase := Writing(a.phase.clip, a.phase.first))
      else a.(phase := Failing("context canceled"))
    case WriteOk(_) =>
      if a.phase.Writing? then
        Attempt(if a.phase.first then Draining(a.phase.clip) else Looping,
                a.seqNo, a.inflight[a.seqNo := a.phase.clip],
                a.armed || a.inflight == map[],
                a.frames + [SentFrame(a.seqNo, a.phase.clip)])
      else a
    case WriteFailed(_, error) => a.(phase := Failing(error))
    case Drain(_) => a.(phase := Looping)
    case Take(sid) => if s.table[sid].slot.Some? then a.(phase := Sending(s.table[sid].slot.value, false)) else a
    case ReadAck(_, ack, _) =>
      if ack.seqNo in a.inflight
      then a.(inflight := a.inflight - {ack.seqNo}, armed := a.inflight - {ack.seqNo} != map[])
      else a
    case AckTimeout(_) => a.(phase := Failing("ssh stream ack timeout"))
    case Break(_, error) => a.(phase := Failing(error))
    case Failed(_, _, _) => NO_ATTEMPT
    case _ => a
  }

  ghost function Next(w: World, step: Step): World
    requires Shaped(w) && Enabled(w, step)
  {
    match step
    case Publish(clip, skip) => World(Published(w.shared, clip, skip), w.attempts)
    case Refresh(next) => WithSessions(Refreshed(w.shared, next), w.attempts)
    case Start =>
      if w.shared.started then w
      else WithSessions(StartedAll(w.shared.(started := true), w.shared.peers, |w.shared.peers|), w.attempts)
    case _ => SessionNext(w, step)
  }

  function SessionNext(w: World, step: Step): World
    requires BySession(step) && step.sid in w.shared.table && step.sid in w.attempts
  {
    World(SharedAfter(w.shared, w.attempts[step.sid], step),
          w.attempts[step.sid := AttemptAfter(w.shared, w.attempts[step.sid], step)])
  }

  /** Every new session starts without an attempt. */
  function WithSessions(s: Shared, attempts: map<nat, Attempt>): World {
    World(s, map sid | sid in s.table :: if sid in attempts then attempts[sid] else NO_ATTEMPT)
  }

  // ---- every attempt keeps its books ----

  ghost predicate AttemptOk(a: Attempt) {
    && (a.armed <==> a.inflight != map[])
    && (forall q :: q in a.inflight ==> 1 <= q <= |a.frames| && a.inflight[q] == a.frames[q - 1].clip)
    && (forall i :: 0 <= i < |a.frames| ==> a.frames[i].number == i + 1 && Fits(a.frames[i].clip))
    && (a.phase.Writing? ==> a.seqNo == |a.frames| + 1)
    && (!a.phase.Writing? && !a.phase.Failing? ==> a.seqNo == |a.frames|)
    && (a.phase.Draining? ==> exists q :: q in a.inflight && a.inflight[q] == a.phase.clip)
    && (a.phase.Offline? || a.phase.Starting? ==> a.frames == [] && a.inflight == map[])
  }

  lemma AttemptStaysOk(s: Shared, a: Attempt, step: Step)
    requires BySession(step) && step.sid in s.table && AttemptOk(a)
    requires Enabled(World(s, map[step.sid := a]), step)
    ensures AttemptOk(AttemptAfter(s, a, step))
  {
    var a' := AttemptAfter(s, a, step);
    if step.WriteOk? {
      assert a.seqNo in a'.inflight && a'.inflight[a.seqNo] == a.phase.clip;
    }
  }

  // ---- coverage ----

  predicate InSlot(x: Session, clip: Clip) {
    x.slot.Some? && x.slot.value.content.id == clip.content.id
  }

  ghost predicate InFlight(a: Attempt, clip: Clip) {
    exists q :: q in a.inflight && a.inflight[q].content.id == clip.content.id
  }

  /** The pending clip is queued, in flight, or just being sent. */
  ghost predicate Covers(x: Session, a: Attempt, clip: Clip) {
    match a.phase
    case Looping => InSlot(x, clip) || InFlight(a, clip)
    case Draining(_) => InSlot(x, clip) || InFlight(a, clip)
    case Sending(c, _) => InSlot(x, clip) || InFlight(a, clip) || c.content.id == clip.content.id
    case Writing(c, _) => InSlot(x, clip) || InFlight(a, clip) || c.content.id == clip.content.id
    case _ => true
  }

  ghost predicate Covered(w: World, sid: nat)
    requires sid in w.shared.table && sid in w.attempts
  {
    IsCurrent(w.shared, sid) && w.shared.table[sid].peer.id in w.shared.pending ==>
      Covers(w.shared.table[sid], w.attempts[sid], w.shared.pending[w.shared.table[sid].peer.id])
  }

  /** Acks as the two receivers make them: for a frame that was sent, carrying
      its clip's ID, and saying that it was applied or rejected. */
  predicate ReceiverAck(a: Attempt, ack: Ack) {
    && 1 <= ack.seqNo <= |a.frames|
    && ack.id == a.frames[ack.seqNo - 1].clip.content.id
    && (ack.status == Applied || ack.status == Rejected)
    && ack.id != ""
  }

  predicate ClosedLoop(w: World, step: Step) {
    step.ReadAck? && step.sid in w.attempts ==> ReceiverAck(w.attempts[step.sid], step.ack)
  }

  /** A receiver's ack of a clip that is pending settles it. */
  lemma AckKeepsCovered(s: Shared, a: Attempt, sid: nat, ack: Ack, now: int)
    requires WellFormed(s) && sid in s.table && AttemptOk(a) && a.phase.Looping? && ReceiverAck(a, ack)
    requires Covered(World(s, map[sid := a]), sid)
    ensures
      var step := ReadAck(sid, ack, now);
      Covered(World(SharedAfter(s, a, step), map[sid := AttemptAfter(s, a, step)]), sid)
  {
    var step := ReadAck(sid, ack, now);
    var s', a' := SharedAfter(s, a, step), AttemptAfter(s, a, step);
    var id := s.table[sid].peer.id;
    if IsCurrent(s', sid) && id in s'.pending && ack.seqNo in a.inflight {
      var p := s.pending[id];
      assert s'.pending[id] == p && s'.table == s.table;
      if !InSlot(s.table[sid], p) {
        var q :| q in a.inflight && a.inflight[q].content.id == p.content.id;
        assert q != ack.seqNo;
        assert q in a'.inflight;
      }
    }
  }

  lemma SendKeepsCovered(s: Shared, a: Attempt, step: Step)
    requires WellFormed(s) && step.WriteOk? && step.sid in s.table && AttemptOk(a) && a.phase.Writing?
    requires Covered(World(s, map[step.sid := a]), step.sid)
    ensures Covered(World(SharedAfter(s, a, step), map[step.sid := AttemptAfter(s, a, step)]), step.sid)
  {
    var a' := AttemptAfter(s, a, step);
    assert a.seqNo in a'.inflight && a'.inflight[a.seqNo] == a.phase.clip;
    var id := s.table[step.sid].peer.id;
    if IsCurrent(s, step.sid) && id in s.pending && InFlight(a, s.pending[id]) {
      var q :| q in a.inflight && a.inflight[q].content.id == s.pending[id].content.id;
      assert q in a'.inflight && a'.inflight[q] == a.inflight[q];
    }
  }

  lemma DrainKeepsCovered(s: Shared, a: Attempt, step: Step)
    requires WellFormed(s) && step.Drain? && step.sid in s.table && AttemptOk(a) && a.phase.Draining?
    requires Covered(World(s, map[step.sid := a]), step.sid)
    ensures Covered(World(SharedAfter(s, a, step), map[step.sid := AttemptAfter(s, a, step)]), step.sid)
  {
    var q :| q in a.inflight && a.inflight[q] == a.phase.clip;
    assert AttemptAfter(s, a, step).inflight == a.inflight;
  }

  /** A session's own step, in a closed loop, keeps its pending clip covered. */
  lemma OwnStepKeepsCovered(s: Shared, a: Attempt, step: Step)
    requires WellFormed(s) && BySession(step) && step.sid in s.table && AttemptOk(a)
    requires Enabled(World(s, map[step.sid := a]), step)
    requires step.ReadAck? ==> ReceiverAck(a, step.ack)
    requires Covered(World(s, map[step.sid := a]), step.sid)
    ensures Covered(World(SharedAfter(s, a, step), map[step.sid := AttemptAfter(s, a, step)]), step.sid)
  {
    match step
    case ReadAck(sid, ack, now) => AckKeepsCovered(s, a, sid, ack, now);
    case WriteOk(_) => SendKeepsCovered(s, a, step);
    case Drain(_) => DrainKeepsCovered(s, a, step);
    case _ =>
  }

  /** A session's step changes no session entry but its own, and no pending
      entry but its peer's. */
  lemma SessionStepFrame(s: Shared, a: Attempt, step: Step)
    requires BySession(step) && step.sid in s.table
    ensures SharedAfter(s, a, step).sessions == s.sessions && SharedAfter(s, a, step).nextID == s.nextID
  {
  }

  lemma SessionStepPending(s: Shared, a: Attempt, step: Step, id: string)
    requires BySession(step) && step.sid in s.table && id != s.table[step.sid].peer.id
    ensures id in SharedAfter(s, a, step).pending <==> id in s.pending
    ensures id in s.pending ==> SharedAfter(s, a, step).pending[id] == s.pending[id]
  {
  }

  lemma SessionStepTable(s: Shared, a: Attempt, step: Step)
    requires WellFormed(s) && BySession(step) && step.sid in s.table
    ensures
      var s' := SharedAfter(s, a, step);
      s'.table == s.table || s'.table == s.table[step.sid := s.table[step.sid].(slot := None)]
  {
  }

  lemma StaleShared(s: Shared, a: Attempt, step: Step)
    requires BySession(step) && step.sid in s.table && !IsCurrent(s, step.sid)
    ensures SharedAfter(s, a, step).pending == s.pending && SharedAfter(s, a, step).runtime == s.runtime
  {
  }

  /** A session that is not the current one of its peer changes neither the
      pending clips nor any runtime state, nor which sessions are current. */
  lemma StaleSessionIsInert(w: World, step: Step)
    requires Shaped(w) && Enabled(w, step) && BySession(step) && !IsCurrent(w.shared, step.sid)
    ensures
      var s' := Next(w, step).shared;
      && s'.pending == w.shared.pending
      && s'.runtime == w.shared.runtime
      && s'.sessions == w.shared.sessions
      && (forall sid :: sid in w.shared.table && sid != step.sid ==> sid in s'.table && s'.table[sid] == w.shared.table[sid])
  {
    StaleShared(w.shared, w.attempts[step.sid], step);
    SessionStepFrame(w.shared, w.attempts[step.sid], step);
    SessionStepTable(w.shared, w.attempts[step.sid], step);
  }

  lemma SessionStepKeepsWellFormed(s: Shared, a: Attempt, step: Step)
    requires WellFormed(s) && BySession(step) && step.sid in s.table
    ensures WellFormed(SharedAfter(s, a, step)) && SharedAfter(s, a, step).table.Keys == s.table.Keys
    ensures forall sid :: sid in s.table ==> SharedAfter(s, a, step).table[sid].peer == s.table[sid].peer
  {
    SessionStepFrame(s, a, step);
    SessionStepTable(s, a, step);
  }

  // ---- the invariant of every run ----

  ghost predicate SessionOk(w: World, sid: nat)
    requires sid in w.shared.table && sid in w.attempts
  {
    AttemptOk(w.attempts[sid]) && Covered(w, sid)
  }

  ghost predicate Inv(w: World) {
    && Shaped(w)
    && (forall sid {:trigger SessionOk(w, sid)} :: sid in w.shared.table ==> SessionOk(w, sid))
  }

  lemma OwnStepKeeps(w: World, step: Step)
    requires Inv(w) && Enabled(w, step) && ClosedLoop(w, step) && BySession(step)
    ensures step.sid in SessionNext(w, step).shared.table && SessionOk(SessionNext(w, step), step.sid)
  {
    var a := w.attempts[step.sid];
    assert SessionOk(w, step.sid);
    SessionStepKeepsWellFormed(w.shared, a, step);
    AttemptStaysOk(w.shared, a, step);
    OwnStepKeepsCovered(w.shared, a, step);
  }

  /** Another session: its peer is a different one, or the stepping session is
      not current; either way its pending clip stays as it is. */
  lemma OtherStepKeeps(w: World, step: Step, sid: nat)
    requires Inv(w) && Enabled(w, step) && BySession(step) && sid in w.shared.table && sid != step.sid
    ensures sid in SessionNext(w, step).shared.table && SessionOk(SessionNext(w, step), sid)
  {
    assert SessionOk(w, sid);
    SessionStepFrame(w.shared, w.attempts[step.sid], step);
    SessionStepTable(w.shared, w.attempts[step.sid], step);
    if IsCurrent(w.shared, step.sid) {
      if IsCurrent(w.shared, sid) {
        SessionStepPending(w.shared, w.attempts[step.sid], step, w.shared.table[sid].peer.id);
      }
    } else {
      StaleShared(w.shared, w.attempts[step.sid], step);
    }
  }

  lemma PublishKeeps(w: World, clip: Clip, skip: string, sid: nat)
    requires Inv(w) && sid in w.shared.table
    ensures sid in Published(w.shared, clip, skip).table
    ensures SessionOk(World(Published(w.shared, clip, skip), w.attempts), sid)
  {
    assert SessionOk(w, sid);
  }

  /** Sessions that survive a refresh keep their clip pending; all others are
      no longer current. */
  lemma RefreshKeeps(w: World, next: seq<Peer>, attempts: map<nat, Attempt>, sid: nat)
    requires Inv(w) && sid in Refreshed(w.shared, next).table && sid in attempts
    requires sid in w.attempts ==> attempts[sid] == w.attempts[sid]
    requires sid !in w.attempts ==> attempts[sid] == NO_ATTEMPT
    ensures SessionOk(World(Refreshed(w.shared, next), attempts), sid)
  {
    var s1 := Reviewed(w.shared, next, w.shared.sessions.Keys);
    ReviewedWellFormed(w.shared, next);
    var s2 := Refreshed(w.shared, next);
    if w.shared.started {
      StartedMissingAdds(s1, next, |next|);
    } else {
      AddsNothing(s1);
    }
    assert AddsSessions(s1, s2);
    if sid in w.attempts {
      assert SessionOk(w, sid);
    }
  }

  lemma AddsNothing(s: Shared)
    requires WellFormed(s)
    ensures AddsSessions(s, s)
  {
  }

  lemma StartKeeps(w: World, s': Shared, attempts: map<nat, Attempt>, sid: nat)
    requires Inv(w) && AddsSessions(w.shared.(started := s'.started), s') && sid in s'.table && sid in attempts
    requires sid in w.attempts ==> attempts[sid] == w.attempts[sid]
    requires sid !in w.attempts ==> attempts[sid] == NO_ATTEMPT
    ensures SessionOk(World(s', attempts), sid)
  {
    if sid in w.attempts {
      assert SessionOk(w, sid);
    }
  }

  lemma SessionStepKeepsInv(w: World, step: Step)
    requires Inv(w) && Enabled(w, step) && ClosedLoop(w, step) && BySession(step)
    ensures Inv(SessionNext(w, step))
  {
    var w' := SessionNext(w, step);
    SessionStepKeepsWellFormed(w.shared, w.attempts[step.sid], step);
    forall sid | sid in w'.shared.table
      ensures SessionOk(w', sid)
    {
      if sid == step.sid { OwnStepKeeps(w, step); } else { OtherStepKeeps(w, step, sid); }
    }
  }

  lemma PublishKeepsInv(w: World, clip: Clip, skip: string)
    requires Inv(w)
    ensures Inv(World(Published(w.shared, clip, skip), w.attempts))
  {
    var w' := World(Published(w.shared, clip, skip), w.attempts);
    PublishedKeeps(w.shared, clip, Targets(w.shared, skip));
    forall sid | sid in w'.shared.table
      ensures SessionOk(w', sid)
    {
      PublishKeeps(w, clip, skip, sid);
    }
  }

  lemma RefreshKeepsInv(w: World, next: seq<Peer>)
    requires Inv(w)
    ensures Inv(WithSessions(Refreshed(w.shared, next), w.attempts))
  {
    var w' := WithSessions(Refreshed(w.shared, next), w.attempts);
    RefreshedWellFormed(w.shared, next);
    forall sid | sid in w'.shared.table
      ensures SessionOk(w', sid)
    {
      RefreshKeeps(w, next, w'.attempts, sid);
    }
  }

  lemma StartKeepsInv(w: World)
    requires Inv(w)
    ensures Inv(WithSessions(StartedAll(w.shared.(started := true), w.shared.peers, |w.shared.peers|), w.attempts))
  {
    var s := w.shared.(started := true);
    var w' := WithSessions(StartedAll(s, s.peers, |s.peers|), w.attempts);
    StartedAllAdds(s, s.peers, |s.peers|);
    forall sid | sid in w'.shared.table
      ensures SessionOk(w', sid)
    {
      StartKeeps(w, w'.shared, w'.attempts, sid);
    }
  }

  lemma StepKeepsInv(w: World, step: Step)
    requires Inv(w) && Enabled(w, step) && ClosedLoop(w, step)
    ensures Inv(Next(w, step))
  {
    match step
    case Publish(clip, skip) => PublishKeepsInv(w, clip, skip);
    case Refresh(next) => RefreshKeepsInv(w, next);
    case Start => StartKeepsInv(w);
    case _ => SessionStepKeepsInv(w, step);
  }

  /** Runs in which peers ack as the two receivers do. */
  ghost predicate IsClosedRun(peers: seq<Peer>, run: seq<World>, steps: seq<Step>) {
    && |run| == |steps| + 1
    && run[0] == Init(peers)
    && (forall i :: 0 <= i < |steps| ==>
          Shaped(run[i]) && Enabled(run[i], steps[i]) && ClosedLoop(run[i], steps[i]) && run[i + 1] == Next(run[i], steps[i]))
  }

  lemma {:induction false} ClosedRunKeepsInv(peers: seq<Peer>, run: seq<World>, steps: seq<Step>, n: nat)
    requires IsClosedRun(peers, run, steps) && n < |run|
    ensures Inv(run[n])
  {
    if n > 0 {
      ClosedRunKeepsInv(peers, run, steps, n - 1);
      StepKeepsInv(run[n - 1], steps[n - 1]);
    }
  }

  /** Coverage: in every reachable main-loop state a peer's pending clip is in
      its queue slot or in flight, the ack timer runs exactly when something is
      in flight, and so a pending clip always has something that will move it. */
  lemma MainLoopCoverage(peers: seq<Peer>, run: seq<World>, steps: seq<Step>, n: nat, sid: nat)
    requires IsClosedRun(peers, run, steps) && n < |run|
    requires sid in run[n].shared.table && sid in run[n].attempts && run[n].attempts[sid].phase.Looping?
    ensures
      var s, a := run[n].shared, run[n].attempts[sid];
      var id := s.table[sid].peer.id;
      && (a.armed <==> a.inflight != map[])
      && (IsCurrent(s, sid) && id in s.pending ==>
            && (InSlot(s.table[sid], s.pending[id]) || InFlight(a, s.pending[id]))
            && (s.table[sid].slot.Some? || a.armed))
  {
    ClosedRunKeepsInv(peers, run, steps, n);
    assert SessionOk(run[n], sid);
  }

  /** Another frame in flight carries the clip's ID. */
  ghost predicate InFlightBeside(a: Attempt, clip: Clip, q: nat) {
    exists r :: r in a.inflight && r != q && a.inflight[r].content.id == clip.content.id
  }

  /** For every ack that a main loop can read, whatever the receiver: the pending
      clip is covered afterwards if and only if the ack names nothing in flight,
      settles the pending clip, or the clip is queued or in another frame. Any
      other ack (an older or concealed verdict for its only frame, say) leaves it
      pending with nothing that will move it. */
  lemma AckLeavesUncovered(s: Shared, a: Attempt, sid: nat, ack: Ack, now: int)
    requires WellFormed(s) && IsCurrent(s, sid) && AttemptOk(a) && a.phase.Looping?
    requires s.table[sid].peer.id in s.pending && Covered(World(s, map[sid := a]), sid)
    ensures
      var step := ReadAck(sid, ack, now);
      var p := s.pending[s.table[sid].peer.id];
      Covered(World(SharedAfter(s, a, step), map[sid := AttemptAfter(s, a, step)]), sid) <==>
        || ack.seqNo !in a.inflight
        || (Settles(ack, a.inflight[ack.seqNo]) && a.inflight[ack.seqNo].content.id == p.content.id)
        || InSlot(s.table[sid], p)
        || InFlightBeside(a, p, ack.seqNo)
  {
    var step := ReadAck(sid, ack, now);
    var id := s.table[sid].peer.id;
    var p := s.pending[id];
    var s', a' := SharedAfter(s, a, step), AttemptAfter(s, a, step);
    SessionStepFrame(s, a, step);
    if ack.seqNo in a.inflight {
      assert s'.table == s.table && a'.inflight == a.inflight - {ack.seqNo};
      assert id in s'.pending ==> s'.pending[id] == p;
      CoversAfterAck(s.table[sid], a, a', p, ack.seqNo);
    }
  }

  lemma CoversAfterAck(x: Session, a: Attempt, a': Attempt, clip: Clip, q: nat)
    requires a'.phase.Looping? && q in a.inflight && a'.inflight == a.inflight - {q}
    ensures Covers(x, a', clip) <==> InSlot(x, clip) || InFlightBeside(a, clip, q)
  {
    if InFlightBeside(a, clip, q) {
      var r :| r in a.inflight && r != q && a.inflight[r].content.id == clip.content.id;
      assert r in a'.inflight;
    }
  }

  /** Nothing will move the pending clip: the main loop waits with an empty queue,
      nothing in flight and no timer. */
  ghost predicate Stranded(w: World, sid: nat, clip: Clip) {
    && sid in w.shared.table && sid in w.attempts && IsCurrent(w.shared, sid)
    && w.shared.table[sid].peer.id in w.shared.pending && w.shared.pending[w.shared.table[sid].peer.id] == clip
    && w.attempts[sid].phase.Looping? && w.shared.table[sid].slot.None? && w.attempts[sid].inflight == map[] && !w.attempts[sid].armed
  }

  ghost predicate StepTo(w: World, step: Step, w': World) {
    Shaped(w) && Enabled(w, step) && w' == Next(w, step)
  }

  /** The first session of a manager with one peer, in its main loop. */
  ghost predicate FirstSession(w: World, peer: Peer, slot: Option<Clip>, a: Attempt) {
    && w.shared.peers == [peer] && w.shared.sessions == map[peer.id := 0]
    && w.shared.table == map[0 := Session(peer, slot, false)] && w.shared.nextID == 1
    && w.attempts == map[0 := a]
  }

  lemma FirstLoop(peer: Peer, now: int) returns (run: seq<World>)
    ensures IsRun([peer], run, [Start, Connected(0, now), ReadPending(0)])
    ensures FirstSession(run[3], peer, None, NO_ATTEMPT.(phase := Looping)) && run[3].shared.pending == map[]
  {
    var w0 := Init([peer]);
    var s := StartedPeer(w0.shared.(started := true), peer);
    assert StartedAll(w0.shared.(started := true), [peer], 0) == w0.shared.(started := true);
    assert StartedAll(w0.shared.(started := true), [peer], 1) == s;
    var w1 := Next(w0, Start);
    assert w1.shared == s;
    assert w1.attempts == map[0 := NO_ATTEMPT];
    var w2 := Next(w1, Connected(0, now));
    assert w2.attempts == map[0 := NO_ATTEMPT.(phase := Starting)];
    var w3 := Next(w2, ReadPending(0));
    assert w3.attempts == map[0 := NO_ATTEMPT.(phase := Looping)];
    run := [w0, w1, w2, w3];
  }

  lemma PublishedToFirst(w: World, peer: Peer, a: Attempt, clip: Clip)
    requires FirstSession(w, peer, None, a) && w.shared.pending == map[] && |clip.content.bytes| <= MAX_PAYLOAD_BYTES
    ensures var w' := World(Published(w.shared, clip, ""), w.attempts);
      FirstSession(w', peer, Some(clip), a) && w'.shared.pending == map[peer.id := clip]
  {
    assert PeerIDs([peer]) == {peer.id} by {
      assert [peer][0] == peer;
    }
    assert Targets(w.shared, "") == {peer.id};
  }

  lemma TakenFromFirst(w: World, peer: Peer, clip: Clip, w': World)
    requires FirstSession(w, peer, Some(clip), NO_ATTEMPT.(phase := Looping)) && Shaped(w)
    requires Enabled(w, Take(0)) ==> w' == Next(w, Take(0))
    ensures StepTo(w, Take(0), w') && Shaped(w') && w'.shared.pending == w.shared.pending
    ensures FirstSession(w', peer, None, NO_ATTEMPT.(phase := Sending(clip, false)))
  {
  }

  lemma NumberedByFirst(w: World, peer: Peer, clip: Clip) returns (w': World)
    requires FirstSession(w, peer, None, NO_ATTEMPT.(phase := Sending(clip, false))) && Shaped(w)
    ensures StepTo(w, BeginSend(0), w') && Shaped(w') && w'.shared.pending == w.shared.pending
    ensures FirstSession(w', peer, None, Attempt(Writing(clip, false), 1, map[], false, []))
  {
    w' := Next(w, BeginSend(0));
  }

  lemma WrittenByFirst(w: World, peer: Peer, clip: Clip) returns (w': World)
    requires FirstSession(w, peer, None, Attempt(Writing(clip, false), 1, map[], false, [])) && Shaped(w) && Fits(clip)
    ensures StepTo(w, WriteOk(0), w') && Shaped(w') && w'.shared.pending == w.shared.pending
    ensures FirstSession(w', peer, None, Attempt(Looping, 1, map[1 := clip], true, [SentFrame(1, clip)]))
  {
    w' := Next(w, WriteOk(0));
    assert w'.attempts[0] == Attempt(Looping, 1, map[1 := clip], true, [SentFrame(1, clip)]) by {
      assert [] + [SentFrame(1, clip)] == [SentFrame(1, clip)];
    }
    assert w'.attempts == map[0 := Attempt(Looping, 1, map[1 := clip], true, [SentFrame(1, clip)])];
  }

  /** The clip is published, taken from the queue, and written as frame 1. */
  lemma FirstFrame(w: World, peer: Peer, clip: Clip) returns (w1: World, w2: World, w3: World, w4: World)
    requires FirstSession(w, peer, None, NO_ATTEMPT.(phase := Looping)) && w.shared.pending == map[]
    requires |clip.content.bytes| <= MAX_PAYLOAD_BYTES
    ensures StepTo(w, Publish(clip, ""), w1) && StepTo(w1, Take(0), w2) && StepTo(w2, BeginSend(0), w3) && StepTo(w3, WriteOk(0), w4)
    ensures FirstSession(w4, peer, None, Attempt(Looping, 1, map[1 := clip], true, [SentFrame(1, clip)])) && Shaped(w4)
    ensures w4.shared.pending == map[peer.id := clip]
  {
    w1 := Next(w, Publish(clip, ""));
    PublishedToFirst(w, peer, NO_ATTEMPT.(phase := Looping), clip);
    w2 := Next(w1, Take(0));
    TakenFromFirst(w1, peer, clip, w2);
    w3 := NumberedByFirst(w2, peer, clip);
    w4 := WrittenByFirst(w3, peer, clip);
  }

  /** A run that strands a clip: it is sent, and the receiver calls it older. */
  lemma OlderAckStrands(peer: Peer, clip: Clip, now: int) returns (run: seq<World>, steps: seq<Step>)
    requires clip.content.id != "" && |clip.content.bytes| <= MAX_PAYLOAD_BYTES
    ensures IsRun([peer], run, steps) && Stranded(run[|run| - 1], 0, clip)
  {
    var start := FirstLoop(peer, now);
    var w1, w2, w3, w4 := FirstFrame(start[3], peer, clip);
    var last := OlderAcked(w4, peer, clip, now);
    steps := [Start, Connected(0, now), ReadPending(0)];
    RunGoesOn([peer], start, steps, Publish(clip, ""), w1);
    RunGoesOn([peer], start + [w1], steps + [Publish(clip, "")], Take(0), w2);
    run, steps := start + [w1] + [w2], steps + [Publish(clip, "")] + [Take(0)];
    RunGoesOn([peer], run, steps, BeginSend(0), w3);
    RunGoesOn([peer], run + [w3], steps + [BeginSend(0)], WriteOk(0), w4);
    run, steps := run + [w3] + [w4], steps + [BeginSend(0)] + [WriteOk(0)];
    RunGoesOn([peer], run, steps, OlderAck(clip, now), last);
    run, steps := run + [last], steps + [OlderAck(clip, now)];
  }

  lemma RunGoesOn(peers: seq<Peer>, run: seq<World>, steps: seq<Step>, step: Step, w: World)
    requires IsRun(peers, run, steps) && StepTo(run[|run| - 1], step, w)
    ensures IsRun(peers, run + [w], steps + [step])
  {
    var all, more := run + [w], steps + [step];
    forall i | 0 <= i < |more|
      ensures StepTo(all[i], more[i], all[i + 1])
    {
      if i < |steps| {
        assert all[i] == run[i] && more[i] == steps[i] && all[i + 1] == run[i + 1];
      }
    }
  }

  function OlderAck(clip: Clip, now: int): Step {
    ReadAck(0, Ack(1, clip.content.id, IgnoredOlder), now)
  }

  lemma OlderAcked(w: World, peer: Peer, clip: Clip, now: int) returns (w': World)
    requires FirstSession(w, peer, None, Attempt(Looping, 1, map[1 := clip], true, [SentFrame(1, clip)])) && Shaped(w)
    requires w.shared.pending == map[peer.id := clip] && clip.content.id != ""
    ensures StepTo(w, OlderAck(clip, now), w') && Stranded(w', 0, clip)
  {
    w' := Next(w, OlderAck(clip, now));
    assert w'.attempts == map[0 := Attempt(Looping, 1, map[], false, [SentFrame(1, clip)])];
  }

  // ---- no silent loss ----

  ghost predicate PendingWith(s: Shared, id: string, clipID: string) {
    id in s.pending && s.pending[id].content.id == clipID
  }

  /** The events that may end the pending state of a clip. */
  ghost predicate Accounts(w: World, step: Step, id: string, clipID: string) {
    match step
    case Publish(clip, skip) => |clip.content.bytes| <= MAX_PAYLOAD_BYTES && id in Targets(w.shared, skip)
    case Refresh(next) => id in w.shared.sessions && LastWith(next, id) == None
    case ReadAck(sid, ack, _) =>
      && IsCurrent(w.shared, sid) && w.shared.table[sid].peer.id == id
      && sid in w.attempts
      && 1 <= ack.seqNo <= |w.attempts[sid].frames|
      && w.attempts[sid].frames[ack.seqNo - 1].clip.content.id == clipID
      && Settles(ack, w.attempts[sid].frames[ack.seqNo - 1].clip)
    case _ => false
  }

  /** Any acks at all: what each attempt books is what it sent. */
  ghost predicate BooksOk(w: World) {
    Shaped(w) && forall sid {:trigger w.attempts[sid]} :: sid in w.attempts ==> AttemptOk(w.attempts[sid])
  }

  lemma BooksUpdated(w: World, s': Shared, sid: nat, a': Attempt)
    requires BooksOk(w) && sid in w.shared.table
    requires WellFormed(s') && s'.table.Keys == w.shared.table.Keys && AttemptOk(a')
    ensures BooksOk(World(s', w.attempts[sid := a']))
  {
  }

  lemma SessionStepKeepsBooks(w: World, step: Step)
    requires BooksOk(w) && Enabled(w, step) && BySession(step)
    ensures BooksOk(SessionNext(w, step))
  {
    SessionStepKeepsWellFormed(w.shared, w.attempts[step.sid], step);
    AttemptStaysOk(w.shared, w.attempts[step.sid], step);
    BooksUpdated(w, SharedAfter(w.shared, w.attempts[step.sid], step), step.sid, AttemptAfter(w.shared, w.attempts[step.sid], step));
  }

  lemma StepKeepsBooks(w: World, step: Step)
    requires BooksOk(w) && Enabled(w, step)
    ensures BooksOk(Next(w, step))
  {
    match step
    case Publish(clip, skip) => PublishedKeeps(w.shared, clip, Targets(w.shared, skip));
    case Refresh(next) =>
      RefreshedWellFormed(w.shared, next);
      NewSessionsKeepBooks(w, Refreshed(w.shared, next));
    case Start =>
      var s := w.shared.(started := true);
      StartedAllWellFormed(s, w.shared.peers, |w.shared.peers|);
      NewSessionsKeepBooks(w, StartedAll(s, w.shared.peers, |w.shared.peers|));
    case _ => SessionStepKeepsBooks(w, step);
  }

  lemma NewSessionsKeepBooks(w: World, s: Shared)
    requires BooksOk(w) && WellFormed(s)
    ensures BooksOk(WithSessions(s, w.attempts))
  {
  }

  lemma SessionLosesOnlyAccounted(w: World, step: Step, id: string, clipID: string)
    requires BooksOk(w) && Enabled(w, step) && BySession(step)
    requires PendingWith(w.shared, id, clipID) && !PendingWith(SessionNext(w, step).shared, id, clipID)
    ensures Accounts(w, step, id, clipID)
  {
    var a := w.attempts[step.sid];
    assert AttemptOk(a);
    if w.shared.table[step.sid].peer.id != id {
      SessionStepPending(w.shared, a, step, id);
    } else {
      OnlyAcksLose(w.shared, a, step, clipID);
    }
  }

  /** Of a session's own steps only a settling ack for its clip ends the pending
      state of that clip. */
  lemma OnlyAcksLose(s: Shared, a: Attempt, step: Step, clipID: string)
    requires BySession(step) && step.sid in s.table && AttemptOk(a)
    requires PendingWith(s, s.table[step.sid].peer.id, clipID)
    requires !PendingWith(SharedAfter(s, a, step), s.table[step.sid].peer.id, clipID)
    ensures step.ReadAck? && IsCurrent(s, step.sid) && step.ack.seqNo in a.inflight
    ensures a.inflight[step.ack.seqNo].content.id == clipID && Settles(step.ack, a.inflight[step.ack.seqNo])
  {
  }

  lemma RefreshLosesOnlyGone(s: Shared, next: seq<Peer>, id: string, clipID: string)
    requires WellFormed(s) && PendingWith(s, id, clipID) && !PendingWith(Refreshed(s, next), id, clipID)
    ensures id in s.sessions && LastWith(next, id) == None
  {
    var s' := Reviewed(s, next, s.sessions.Keys);
    ReviewedWellFormed(s, next);
    StartedMissingAdds(s', next, |next|);
  }

  lemma StepLosesOnlyAccounted(w: World, step: Step, id: string, clipID: string)
    requires BooksOk(w) && Enabled(w, step)
    requires PendingWith(w.shared, id, clipID) && !PendingWith(Next(w, step).shared, id, clipID)
    ensures Accounts(w, step, id, clipID)
  {
    match step
    case Publish(clip, skip) =>
    case Refresh(next) => RefreshLosesOnlyGone(w.shared, next, id, clipID);
    case Start =>
      StartedAllAdds(w.shared.(started := true), w.shared.peers, |w.shared.peers|);
      assert false;
    case _ => SessionLosesOnlyAccounted(w, step, id, clipID);
  }

  ghost predicate IsRun(peers: seq<Peer>, run: seq<World>, steps: seq<Step>) {
    && |run| == |steps| + 1
    && run[0] == Init(peers)
    && (forall i :: 0 <= i < |steps| ==> Shaped(run[i]) && Enabled(run[i], steps[i]) && run[i + 1] == Next(run[i], steps[i]))
  }

  lemma {:induction false} RunKeepsBooks(peers: seq<Peer>, run: seq<World>, steps: seq<Step>, n: nat)
    requires IsRun(peers, run, steps) && n < |run|
    ensures BooksOk(run[n])
  {
    if n > 0 {
      RunKeepsBooks(peers, run, steps, n - 1);
      StepKeepsBooks(run[n - 1], steps[n - 1]);
    }
  }

  /** No silent loss. Under any interleaving, a clip that was pending for a peer
      and later is not was displaced by a publication to that peer, settled by
      an ack for a frame of that attempt carrying it, or dropped with the peer. */
  lemma {:induction false} NoSilentLoss(peers: seq<Peer>, run: seq<World>, steps: seq<Step>, i: nat, j: nat, id: string, clipID: string)
    returns (k: nat)
    requires IsRun(peers, run, steps) && i < j < |run|
    requires PendingWith(run[i].shared, id, clipID) && !PendingWith(run[j].shared, id, clipID)
    ensures i <= k < j && PendingWith(run[k].shared, id, clipID) && Accounts(run[k], steps[k], id, clipID)
    decreases j
  {
    if !PendingWith(run[j - 1].shared, id, clipID) {
      k := NoSilentLoss(peers, run, steps, i, j - 1, id, clipID);
    } else {
      k := j - 1;
      RunKeepsBooks(peers, run, steps, k);
      StepLosesOnlyAccounted(run[k], steps[k], id, clipID);
    }
  }

  /** The frames of an attempt carry the numbers 1, 2, 3, ... in writing order, and
      what is in flight under a number is the clip of the frame sent with it. */
  lemma FramesAreNumbered(peers: seq<Peer>, run: seq<World>, steps: seq<Step>, n: nat, sid: nat)
    requires IsRun(peers, run, steps) && n < |run| && sid in run[n].attempts
    ensures forall i :: 0 <= i < |run[n].attempts[sid].frames| ==>
              run[n].attempts[sid].frames[i].number == i + 1 && Fits(run[n].attempts[sid].frames[i].clip)
    ensures forall q :: q in run[n].attempts[sid].inflight ==>
              1 <= q <= |run[n].attempts[sid].frames| && run[n].attempts[sid].inflight[q] == run[n].attempts[sid].frames[q - 1].clip
    ensures run[n].attempts[sid].phase.Writing? ==> run[n].attempts[sid].seqNo == |run[n].attempts[sid].frames| + 1
  {
    RunKeepsBooks(peers, run, steps, n);
    assert AttemptOk(run[n].attempts[sid]);
  }
}
