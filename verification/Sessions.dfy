/** Every connection the server has accepted, against the connection cap: a
    permit is taken before the handshake and dropped when the connection's
    handler returns (src/helpers/internal_server.rs:302-358, 510-611). */
module Sessions {
  import opened Results
  import Wire
  import opened Outboxes

  type SessionId = nat

  /** The reader task: reading, done with its stream, or past the start of its
      final `send`, which may still be blocked. */
  datatype Reader = Reading | Closing | Sending

  datatype Session =
    | Handshaking
    | Live(outbox: Outbox, reader: Reader)
    | Ended

  datatype State = State(max: nat, free: nat, refused: nat, sessions: map<SessionId, Session>)

  /** One arrival: a free permit, or a refusal that is only counted. */
  function Admit(free: nat, refused: nat): (bool, nat, nat) {
    if free == 0 then (false, 0, refused + 1) else (true, free - 1, refused)
  }

  /** The semaphore that the accept loop and the connection tasks share. */
  class Slots {
    const max: nat
    var free: nat
    var refused: nat

    constructor (maxConnections: nat)
      ensures max == free == maxConnections && refused == 0
    {
      max, free, refused := maxConnections, maxConnections, 0;
    }

    method TryAcquire() returns (permit: bool)
      modifies this
      ensures (permit, free, refused) == Admit(old(free), old(refused))
      ensures permit <==> old(free) > 0
      ensures permit ==> free == old(free) - 1 && refused == old(refused)
      ensures !permit ==> free == 0 && refused == old(refused) + 1
    {
      if free == 0 {
        refused := refused + 1;
        return false;
      }
      free := free - 1;
      return true;
    }
  }

  datatype Step =
    | Arrive(id: SessionId)
    | HandshakeFails(id: SessionId)
    | Upgrade(id: SessionId, capacity: nat)
    | ReaderExits(id: SessionId)
    | ReaderSends(id: SessionId, peer: Wire.Text)
    | ReaderGivesUp(id: SessionId)
    | Produce(id: SessionId, send: Send)
    | SlotStep(id: SessionId, step: OutboxStep)
    | WriterStep(id: SessionId, step: OutboxStep)
    | Return(id: SessionId)

  predicate IsServerWriterStep(step: OutboxStep) {
    step.Start? || step.Receive? || step.Write? || step.WriteFails?
  }

  function WithSession(s: State, id: SessionId, session: Session): State {
    s.(sessions := s.sessions[id := session])
  }

  function SessionOf(s: State, id: SessionId): Session {
    if id in s.sessions then s.sessions[id] else Ended
  }

  /** The session with its outbox moved on, if that move is possible. */
  function WithOutbox(s: State, id: SessionId, step: OutboxStep, reader: Reader): Option<State> {
    var session := SessionOf(s, id);
    if !session.Live? then None
    else
      var o := Outboxes.Next(session.outbox, step);
      if o.None? then None else Some(WithSession(s, id, Live(o.value, reader)))
  }

  function Next(s: State, step: Step): Option<State> {
    var session := SessionOf(s, step.id);
    match step
    case Arrive(id) =>
      if id in s.sessions then None
      else
        var (permit, free, refused) := Admit(s.free, s.refused);
        Some((if permit then WithSession(s, id, Handshaking) else s).(free := free, refused := refused))
    case HandshakeFails(id) =>
      if session.Handshaking? then Some(WithSession(s, id, Ended).(free := s.free + 1)) else None
    case Upgrade(id, capacity) =>
      if session.Handshaking? && capacity > 0 then Some(WithSession(s, id, Live(NewOutbox(capacity, Starting), Reading))) else None
    case ReaderExits(id) =>
      if session.Live? && session.reader.Reading? then Some(WithSession(s, id, session.(reader := Closing))) else None
    case ReaderSends(id, peer) =>
      if session.Live? && session.reader.Closing?
      then WithOutbox(s, id, Ask(Send(Wire.MakeDisconnect(peer), true, false)), Sending) else None
    case ReaderGivesUp(id) =>
      if session.Live? && session.reader.Closing? && !session.outbox.open
      then Some(WithSession(s, id, session.(reader := Sending))) else None
    case Produce(id, send) => if session.Live? then WithOutbox(s, id, Ask(send), session.reader) else None
    case SlotStep(id, ss) =>
      if session.Live? && IsSlotStep(ss) then WithOutbox(s, id, ss, session.reader) else None
    case WriterStep(id, ws) =>
      if session.Live? && IsServerWriterStep(ws) then WithOutbox(s, id, ws, session.reader) else None
    case Return(id) =>
      if session.Live? && session.outbox.writer.Exited? then Some(WithSession(s, id, Ended).(free := s.free + 1)) else None
  }

  function Start(max: nat): State {
    State(max, max, 0, map[])
  }

  function LiveIds(sessions: map<SessionId, Session>): set<SessionId> {
    set id | id in sessions && !sessions[id].Ended?
  }

  ghost predicate SessionInv(session: Session) {
    session.Live? ==>
      && Valid(session.outbox) && session.outbox.capacity > 0 && Unopened(session.outbox.writer) == 0
      && (session.reader.Sending? ==> Doomed(session.outbox))
  }

  ghost predicate Inv(s: State) {
    && s.free + |LiveIds(s.sessions)| == s.max
    && (forall id :: id in s.sessions ==> SessionInv(s.sessions[id]))
  }

  lemma LiveUpdate(sessions: map<SessionId, Session>, id: SessionId, session: Session)
    ensures |LiveIds(sessions[id := session])| == |LiveIds(sessions)|
      + (if session.Ended? then 0 else 1) - (if id in sessions && !sessions[id].Ended? then 1 else 0)
  {
    var before, after := LiveIds(sessions), LiveIds(sessions[id := session]);
    assert after - {id} == before - {id};
    assert |after - {id}| == |after| - (if id in after then 1 else 0);
    assert |before - {id}| == |before| - (if id in before then 1 else 0);
  }

  lemma StepKeepsPermits(s: State, step: Step)
    requires s.free + |LiveIds(s.sessions)| == s.max && Next(s, step).Some?
    ensures var after := Next(s, step).value; after.free + |LiveIds(after.sessions)| == after.max == s.max
  {
    hide Outboxes.Next, Wire.MakeDisconnect;
    var after := Next(s, step).value;
    LiveUpdate(s.sessions, step.id, SessionOf(after, step.id));
  }

  lemma OthersAreUntouched(s: State, step: Step)
    requires Next(s, step).Some?
    ensures forall id :: id != step.id ==> SessionOf(Next(s, step).value, id) == SessionOf(s, id)
  {
    hide Outboxes.Next, Wire.MakeDisconnect;
  }

  lemma SessionStepKeepsInv(s: State, step: Step)
    requires SessionInv(SessionOf(s, step.id)) && Next(s, step).Some?
    ensures SessionInv(SessionOf(Next(s, step).value, step.id))
  {
    var session := SessionOf(s, step.id);
    hide Outboxes.Next, Doomed, Wire.MakeDisconnect, Valid;
    match step
    case ReaderSends(_, peer) =>
      StepKeepsValid(session.outbox, Ask(Send(Wire.MakeDisconnect(peer), true, false)));
      NoticeDooms(session.outbox, peer);
    case Produce(_, send) =>
      StepKeepsValid(session.outbox, Ask(send));
      if session.reader.Sending? { StepKeepsDoom(session.outbox, Ask(send)); }
    case SlotStep(_, ss) =>
      StepKeepsValid(session.outbox, ss);
      if session.reader.Sending? { StepKeepsDoom(session.outbox, ss); }
    case WriterStep(_, ws) =>
      StepKeepsValid(session.outbox, ws);
      if session.reader.Sending? { StepKeepsDoom(session.outbox, ws); }
    case ReaderGivesUp(_) => ClosedOutboxIsDoomed(session.outbox);
    case Upgrade(_, capacity) => NewOutboxIsValid(capacity);
    case _ =>
  }

  lemma StepKeepsInv(s: State, step: Step)
    requires Inv(s) && Next(s, step).Some?
    ensures Inv(Next(s, step).value)
  {
    StepKeepsPermits(s, step);
    OthersAreUntouched(s, step);
    SessionStepKeepsInv(s, step);
    hide Next, LiveIds;
    var after := Next(s, step).value;
    forall id | id in after.sessions
      ensures SessionInv(after.sessions[id])
    {
      assert after.sessions[id] == SessionOf(after, id);
    }
  }

  lemma NewOutboxIsValid(capacity: nat)
    ensures Valid(NewOutbox(capacity, Starting))
  {
  }

  lemma ClosedOutboxIsDoomed(o: Outbox)
    requires Valid(o) && !o.open
    ensures Doomed(o)
  {
  }

  // ------------------------------------------------------------- whole runs

  function Run(s: State, steps: seq<Step>): Option<State>
    decreases |steps|
  {
    if steps == [] then Some(s)
    else
      var next := Next(s, steps[0]);
      if next.None? then None else Run(next.value, steps[1..])
  }

  lemma {:induction false} RunKeepsInv(s: State, steps: seq<Step>)
    requires Inv(s) && Run(s, steps).Some?
    ensures Inv(Run(s, steps).value) && Run(s, steps).value.max == s.max
    decreases |steps|
  {
    hide Inv, Next;
    if steps != [] {
      StepKeepsInv(s, steps[0]);
      MaxIsFixed(s, steps[0]);
      RunKeepsInv(Next(s, steps[0]).value, steps[1..]);
    }
  }

  lemma MaxIsFixed(s: State, step: Step)
    requires Next(s, step).Some?
    ensures Next(s, step).value.max == s.max
  {
    hide Outboxes.Next, Wire.MakeDisconnect;
  }

  /** In every state of every run, live accepted sessions and free permits add
      up to the cap, and an arrival is refused exactly when the cap is reached. */
  lemma CapIsExact(max: nat, steps: seq<Step>, id: SessionId)
    requires Run(Start(max), steps).Some? && id !in Run(Start(max), steps).value.sessions
    ensures var s := Run(Start(max), steps).value;
      && s.free + |LiveIds(s.sessions)| == max
      && Next(s, Arrive(id)).Some?
      && (Next(s, Arrive(id)).value.refused > s.refused <==> |LiveIds(s.sessions)| == max)
      && (SessionOf(Next(s, Arrive(id)).value, id).Handshaking? <==> |LiveIds(s.sessions)| < max)
  {
    assert LiveIds(map[]) == {};
    RunKeepsInv(Start(max), steps);
  }

  /** Every server connection, in every run: the wire is what the writer loop
      alone would have made of the frames it took from the channel. */
  lemma ServerWiresStop(max: nat, steps: seq<Step>, id: SessionId)
    requires Run(Start(max), steps).Some? && SessionOf(Run(Start(max), steps).value, id).Live?
    ensures var o := SessionOf(Run(Start(max), steps).value, id).outbox;
      && o.taken + o.queue == o.accepted
      && LoopOutput(o.taken, Writes(o), o.wire, o.writer == Exited(Stopped))
      && (o.writer.Idle? && o.queue == [] ==> o.wire == o.accepted)
  {
    assert LiveIds(map[]) == {};
    RunKeepsInv(Start(max), steps);
    hide LoopOutput, Writes;
    InterleavedLoopOutput(SessionOf(Run(Start(max), steps).value, id).outbox);
  }

  /** A session whose reader has exited is never stuck: until its handler has
      returned, its reader, its writer or a sender with a slot has a step to
      take, and the reader can always start its final `send`. */
  lemma ClosingNeverStuck(s: State, id: SessionId, peer: Wire.Text)
    requires Inv(s) && id in s.sessions && s.sessions[id].Live? && !s.sessions[id].reader.Reading?
    ensures || Next(s, ReaderSends(id, peer)).Some?
            || (exists ws :: IsServerWriterStep(ws) && Next(s, WriterStep(id, ws)).Some?)
            || Next(s, SlotStep(id, Put(0))).Some?
            || Next(s, Return(id)).Some?
    ensures s.sessions[id].reader.Closing? ==> Next(s, ReaderSends(id, peer)).Some? || Next(s, Return(id)).Some?
  {
    hide Wire.MakeDisconnect, Stops;
    var o := s.sessions[id].outbox;
    if o.writer.Starting? {
      assert Next(s, WriterStep(id, OutboxStep.Start)).Some?;
    } else if o.writer.Busy? {
      assert Next(s, WriterStep(id, Write)).Some?;
    } else if o.writer.Exited? {
      assert Next(s, Return(id)).Some?;
    } else if o.queue != [] {
      assert Next(s, WriterStep(id, Receive)).Some?;
    }
  }

  /** The writer steps of one session in a run, apart from those it takes while
      all that is missing is a turn for a sender whose slot is there. */
  function WriterStepsOf(s: State, steps: seq<Step>, id: SessionId): nat
    requires Run(s, steps).Some?
    decreases |steps|
  {
    if steps == [] then 0
    else
      (if IsDueStep(s, steps[0], id) then 1 else 0) + WriterStepsOf(Next(s, steps[0]).value, steps[1..], id)
  }

  predicate IsDueStep(s: State, step: Step, id: SessionId) {
    var session := SessionOf(s, id);
    step.WriterStep? && step.id == id && session.Live? && !AwaitsSender(session.outbox)
  }

  /** Once the reader's final `send` has begun, blocked or not, the session's
      writer is done after at most `StepsLeft` of its own steps, whatever all
      the other tasks do, and then the handler returns its permit. */
  lemma {:induction false} ClosedSessionEnds(s: State, steps: seq<Step>, id: SessionId)
    requires Inv(s) && Run(s, steps).Some? && id in s.sessions
    requires s.sessions[id].Live? && s.sessions[id].reader.Sending?
    requires WriterStepsOf(s, steps, id) >= StepsLeft(s.sessions[id].outbox)
    ensures HasEnded(Run(s, steps).value, id)
    decreases |steps|
  {
    if steps == [] {
      assert Doomed(s.sessions[id].outbox);
    } else {
      var after := Next(s, steps[0]).value;
      StepKeepsInv(s, steps[0]);
      SendingProgress(s, steps[0], id);
      hide Next, Inv, StepsLeft, IsDueStep;
      if after.sessions[id].Ended? {
        EndedStaysEnded(after, steps[1..], id);
      } else {
        ClosedSessionEnds(after, steps[1..], id);
      }
    }
  }

  /** The handler has returned or has only that left to do. */
  predicate HasEnded(s: State, id: SessionId) {
    SessionOf(s, id).Ended? || (Next(s, Return(id)).Some? && Next(s, Return(id)).value.free == s.free + 1)
  }

  /** From the moment a reader leaves its stream behind and starts its final
      `send`, its session ends within two writer steps for each slot of the
      channel and each sender blocked before it, and three more. */
  lemma ReaderExitEndsSession(s: State, peer: Wire.Text, steps: seq<Step>, id: SessionId)
    requires Inv(s) && id in s.sessions && s.sessions[id].Live? && s.sessions[id].reader.Closing?
    requires Next(s, ReaderSends(id, peer)).Some? && Run(Next(s, ReaderSends(id, peer)).value, steps).Some?
    requires var o := s.sessions[id].outbox;
      WriterStepsOf(Next(s, ReaderSends(id, peer)).value, steps, id) >= 2 * (o.capacity + |o.waiting|) + 3
    ensures HasEnded(Run(Next(s, ReaderSends(id, peer)).value, steps).value, id)
  {
    var after := Next(s, ReaderSends(id, peer)).value;
    StepKeepsInv(s, ReaderSends(id, peer));
    StepsLeftBound(after.sessions[id].outbox);
    hide Inv, Run, WriterStepsOf, HasEnded, Wire.MakeDisconnect, StepsLeft, Doomed;
    ClosedSessionEnds(after, steps, id);
  }

  lemma SendingProgress(s: State, step: Step, id: SessionId)
    requires Inv(s) && Next(s, step).Some? && id in s.sessions
    requires s.sessions[id].Live? && s.sessions[id].reader.Sending?
    ensures id in Next(s, step).value.sessions
    ensures var now := Next(s, step).value.sessions[id];
      || now.Ended?
      || (&& now.Live? && now.reader.Sending?
          && StepsLeft(now.outbox) + (if IsDueStep(s, step, id) then 1 else 0) <= StepsLeft(s.sessions[id].outbox))
  {
    hide Outboxes.Next, Doomed, LiveIds, Wire.MakeDisconnect, Stops, StepsLeft, AwaitsSender;
    if step.id == id {
      match step
      case Produce(_, send) => StepKeepsDoom(s.sessions[id].outbox, Ask(send));
      case SlotStep(_, ss) => StepKeepsDoom(s.sessions[id].outbox, ss);
      case WriterStep(_, ws) => StepKeepsDoom(s.sessions[id].outbox, ws);
      case _ =>
    }
  }

  lemma {:induction false} EndedStaysEnded(s: State, steps: seq<Step>, id: SessionId)
    requires Run(s, steps).Some? && id in s.sessions && s.sessions[id].Ended?
    ensures SessionOf(Run(s, steps).value, id).Ended?
    decreases |steps|
  {
    hide Outboxes.Next, Wire.MakeDisconnect;
    if steps != [] {
      EndedStaysEnded(Next(s, steps[0]).value, steps[1..], id);
    }
  }
}
