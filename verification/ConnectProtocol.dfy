/** Every task that can start, run or end a client connection, interleaved one
    critical section or `.await` at a time
    (src/helpers/get_internal_websocket.rs, src/helpers/get_outer_websocket.rs,
    src/helpers/internal_client.rs). */
module ConnectProtocol {
  import opened Results
  import Wire
  import opened Outboxes
  import SS = ServerSenders

  type TaskId = SS.ChannelId

  /** Where an attempt's stream comes from, and what a failed dial does. */
  datatype Route = Internal | External | ScanHandoff

  datatype Task =
    | Claiming(route: Route, url: string)         // before `try_acquire`
    | Dialing(route: Route, url: string)          // guard held, handshake running
    | Adding(url: string)                         // guard held, stream open, before `add`
    | Session                                     // guard held, after `add`; its channel has this task's id
    | Evicting                                    // guard held, dial failed, before `remove_ip`
    | Dropping                                    // guard held, about to go out of scope
    | ResetPending                                // the task spawned by the guard's Drop
    | Finished                                    // flag reset and guard disarmed, receiver not yet dropped
    | ScanStarting                                // before the claim of `is_scanning`
    | Scanning                                    // between that claim and its release
    | Noticing(channel: TaskId)                   // the task spawned by `sx_drop`
    | Sending(channel: TaskId, frame: Wire.Frame) // a `send` holding a clone of the sender
    | Done

  /** `usePing` is the option: a session opens with a Ping. */
  datatype State = State(
    shared: SS.SenderState, tasks: map<TaskId, Task>, channels: map<TaskId, Outbox>, usePing: bool)

  /** `spare` is the id a notice task takes if the step spawns one. */
  datatype Step =
    | SpawnAttempt(t: TaskId, route: Route, url: string)
    | SpawnScan(t: TaskId)
    | SpawnSend(t: TaskId, frame: Wire.Frame)
    | SpawnReaderSend(t: TaskId, channel: TaskId, frame: Wire.Frame)
    | Claim(t: TaskId)
    | DialSucceeds(t: TaskId)
    | DialFails(t: TaskId)
    | EvictAfterFailure(t: TaskId, spare: TaskId)
    | DropGuard(t: TaskId)
    | RunReset(t: TaskId)
    | AddToSender(t: TaskId, spare: TaskId, capacity: nat)  // a channel of no capacity panics: `Cancel`
    | WriterStep(t: TaskId, step: OutboxStep)
    | SlotStep(t: TaskId, step: OutboxStep)       // a sender into channel `t` that has asked for a slot
    | Finish(t: TaskId)
    | DropRx(t: TaskId)
    | Cancel(t: TaskId)
    | Evict(spare: TaskId)
    | Deliver(t: TaskId, peer: Wire.Text)
    | DeliveryFails(t: TaskId)
    | ClaimScan(t: TaskId)
    | EndScan(t: TaskId, found: Option<string>)

  predicate HoldsGuard(task: Task) {
    task.Dialing? || task.Adding? || task.Session? || task.Evicting? || task.Dropping?
  }

  /** Each of these will reset `is_try_connect` exactly once. */
  predicate OwesReset(task: Task) {
    HoldsGuard(task) || task.ResetPending?
  }

  function WithTask(s: State, t: TaskId, task: Task): State {
    s.(tasks := s.tasks[t := task])
  }

  function WithNotice(s: State, notice: Option<SS.Notice>, spare: TaskId): State {
    if notice.None? then s else WithTask(s, spare, Noticing(notice.value.channel))
  }

  function WithChannel(s: State, c: TaskId, o: Outbox): State {
    s.(channels := s.channels[c := o])
  }

  function CloseChannel(s: State, c: TaskId): State {
    if c in s.channels then WithChannel(s, c, Close(s.channels[c])) else s
  }

  function TaskOf(s: State, t: TaskId): Task {
    if t in s.tasks then s.tasks[t] else Done
  }

  /** A notice is sent by a task of its own, which nothing cancels. */
  function SendOf(task: Task, peer: Wire.Text): Send
    requires task.Noticing? || task.Sending?
  {
    if task.Noticing? then Send(Wire.MakeDisconnect(peer), true, false) else Send(task.frame, false, false)
  }

  /** The opening Ping goes through a clone of the stored sender, which may since
      have been taken; it is left out if pings are off or there is no sender. */
  predicate IsHandlerStep(s: State, step: OutboxStep) {
    && IsWriterStep(step)
    && (step.Greet? ==> s.usePing)
    && (step.SkipGreeting? ==> !s.usePing || s.shared.sx == None)
  }

  /** The step changes a channel or the shared record and no task of its own. */
  predicate KeepsTasks(step: Step) {
    step.Evict? || step.WriterStep? || step.SlotStep?
  }

  function Next(s: State, step: Step): Option<State> {
    match step
    case SpawnAttempt(t, route, url) =>
      if t in s.tasks || route.ScanHandoff? then None else Some(WithTask(s, t, Claiming(route, url)))
    case SpawnScan(t) => if t in s.tasks then None else Some(WithTask(s, t, ScanStarting))
    case SpawnSend(t, frame) =>
      if t in s.tasks || s.shared.sx.None? then None else Some(WithTask(s, t, Sending(s.shared.sx.value, frame)))
    case SpawnReaderSend(t, c, frame) =>
      if t in s.tasks || c !in s.channels then None else Some(WithTask(s, t, Sending(c, frame)))
    case Claim(t) =>
      var task := TaskOf(s, t);
      if !task.Claiming? then None
      else
        var (won, shared) := SS.TryClaim(s.shared);
        Some(if !won then WithTask(s, t, Done)
             else
               WithTask(s, t, if task.route.ScanHandoff? then Adding(task.url) else Dialing(task.route, task.url))
               .(shared := shared))
    case DialSucceeds(t) =>
      var task := TaskOf(s, t);
      if task.Dialing? && task.url != "" then Some(WithTask(s, t, Adding(task.url))) else None
    case DialFails(t) =>
      var task := TaskOf(s, t);
      if !task.Dialing? then None
      else Some(WithTask(s, t, if task.route.Internal? then Evicting else Dropping))
    case EvictAfterFailure(t, spare) =>
      if !TaskOf(s, t).Evicting? || spare in s.tasks then None
      else
        var (notice, shared) := SS.RemoveIp(s.shared);
        Some(WithNotice(WithTask(s, t, Dropping), notice, spare).(shared := shared))
    case DropGuard(t) => if TaskOf(s, t).Dropping? then Some(WithTask(s, t, ResetPending)) else None
    case RunReset(t) =>
      if TaskOf(s, t).ResetPending? then Some(WithTask(s, t, Done).(shared := SS.Release(s.shared))) else None
    case AddToSender(t, spare, capacity) =>
      var task := TaskOf(s, t);
      if !task.Adding? || spare in s.tasks || capacity == 0 then None
      else
        var (notice, shared) := SS.Add(s.shared, t, task.url);
        Some(WithChannel(WithNotice(WithTask(s, t, Session), notice, spare), t, NewOutbox(capacity, Opening))
             .(shared := shared))
    case WriterStep(t, os) =>
      if !TaskOf(s, t).Session? || t !in s.channels || !IsHandlerStep(s, os) then None
      else
        var o := Outboxes.Next(s.channels[t], os);
        if o.None? then None else Some(WithChannel(s, t, o.value))
    case SlotStep(c, ss) =>
      if c !in s.channels || !IsSlotStep(ss) then None
      else
        var o := Outboxes.Next(s.channels[c], ss);
        if o.None? then None else Some(WithChannel(s, c, o.value))
    case Finish(t) =>
      if TaskOf(s, t).Session? && t in s.channels && s.channels[t].writer.Exited?
      then Some(WithTask(s, t, Finished).(shared := SS.Release(s.shared))) else None
    case DropRx(t) => if TaskOf(s, t).Finished? then Some(CloseChannel(WithTask(s, t, Done), t)) else None
    case Cancel(t) =>
      if HoldsGuard(TaskOf(s, t)) then Some(CloseChannel(WithTask(s, t, ResetPending), t)) else None
    case Evict(spare) =>
      if spare in s.tasks then None
      else
        var (notice, shared) := SS.RemoveIp(s.shared);
        Some(WithNotice(s, notice, spare).(shared := shared))
    case Deliver(t, peer) =>
      var task := TaskOf(s, t);
      if !(task.Noticing? || task.Sending?) || task.channel !in s.channels then None
      else
        var o := Outboxes.Next(s.channels[task.channel], Ask(SendOf(task, peer)));
        if o.None? then None else Some(WithChannel(WithTask(s, t, Done), task.channel, o.value))
    case DeliveryFails(t) =>
      var task := TaskOf(s, t);
      if (task.Noticing? || task.Sending?) && task.channel in s.channels && !s.channels[task.channel].open
      then Some(WithTask(s, t, Done)) else None
    case ClaimScan(t) =>
      if !TaskOf(s, t).ScanStarting? then None
      else
        var (won, shared) := SS.TryClaimScan(s.shared);
        Some(WithTask(s, t, if won then Scanning else Done).(shared := shared))
    case EndScan(t, found) =>
      if !TaskOf(s, t).Scanning? || found == Some("") then None
      else
        Some(WithTask(s, t, if found.Some? then Claiming(ScanHandoff, found.value) else Done)
             .(shared := SS.ReleaseScan(s.shared)))
  }

  function Init(serverIp: string, usePing: bool): State {
    State(SS.SenderState(None, serverIp, 0, false, false), map[], map[], usePing)
  }

  // ------------------------------------------------------------- invariants

  function Owing(tasks: map<TaskId, Task>): set<TaskId> {
    set t | t in tasks && OwesReset(tasks[t])
  }

  function ScansOpen(tasks: map<TaskId, Task>): set<TaskId> {
    set t | t in tasks && tasks[t].Scanning?
  }

  /** Guards held and resets pending total 1 when the flag is set, 0 when not. */
  ghost predicate SingleFlight(s: State) {
    |Owing(s.tasks)| == if s.shared.isTryConnect then 1 else 0
  }

  ghost predicate SingleScan(s: State) {
    |ScansOpen(s.tasks)| == if s.shared.isScanning then 1 else 0
  }

  /** Task `t` is in a connection past its `add` whose writer loop has not ended. */
  predicate LoopRuns(s: State, t: TaskId) {
    t in s.tasks && s.tasks[t].Session? && t in s.channels && !s.channels[t].writer.Exited?
  }

  /** A Disconnect for the channel is pending, queued or being written. */
  predicate Notified(s: State, c: TaskId) {
    || (exists n :: n in s.tasks && s.tasks[n] == Noticing(c))
    || (c in s.channels && DisconnectDue(s.channels[c]))
  }

  ghost predicate LoopsOwnSender(s: State) {
    forall t :: LoopRuns(s, t) ==>
      s.channels[t].open && (s.shared.sx == Some(t) || (s.shared.sx == None && Notified(s, t)))
  }

  predicate TaskFits(channels: map<TaskId, Outbox>, task: Task) {
    match task
    case Adding(url) => url != ""
    case Claiming(route, url) => route.ScanHandoff? ==> url != ""
    case Noticing(c) => c in channels
    case Sending(c, _) => c in channels
    case _ => true
  }

  predicate SenderFits(s: State) {
    s.shared.sx.Some? ==> s.shared.serverIp != "" && s.shared.sx.value in s.channels
  }

  ghost predicate SenderHasAddress(s: State) {
    && SenderFits(s)
    && (forall t :: t in s.tasks ==>
          TaskFits(s.channels, s.tasks[t]) && (s.tasks[t].Session? ==> t in s.channels))
  }

  ghost predicate WiresValid(s: State) {
    forall c :: c in s.channels ==> Valid(s.channels[c])
  }

  ghost predicate Inv(s: State) {
    SingleFlight(s) && SingleScan(s) && LoopsOwnSender(s) && SenderHasAddress(s) && WiresValid(s)
  }

  lemma OwingUpdate(tasks: map<TaskId, Task>, t: TaskId, task: Task)
    ensures |Owing(tasks[t := task])| == |Owing(tasks)|
      + (if OwesReset(task) then 1 else 0) - (if t in tasks && OwesReset(tasks[t]) then 1 else 0)
  {
    assert Owing(tasks[t := task]) == if OwesReset(task) then Owing(tasks) + {t} else Owing(tasks) - {t};
  }

  lemma ScansUpdate(tasks: map<TaskId, Task>, t: TaskId, task: Task)
    ensures |ScansOpen(tasks[t := task])| == |ScansOpen(tasks)|
      + (if task.Scanning? then 1 else 0) - (if t in tasks && tasks[t].Scanning? then 1 else 0)
  {
    assert ScansOpen(tasks[t := task]) == if task.Scanning? then ScansOpen(tasks) + {t} else ScansOpen(tasks) - {t};
  }

  lemma OneOwner(s: State, t: TaskId, u: TaskId)
    requires SingleFlight(s)
    requires t in s.tasks && u in s.tasks && OwesReset(s.tasks[t]) && OwesReset(s.tasks[u])
    ensures t == u && s.shared.isTryConnect
  {
    assert t in Owing(s.tasks) && u in Owing(s.tasks);
    assert |Owing(s.tasks) - {t}| == |Owing(s.tasks)| - 1;
  }

  /** The channel a step's `remove_ip` or `add` takes away, for a notice. */
  function Displaced(s: State, step: Step): Option<TaskId> {
    if step.AddToSender? || ((step.Evict? || step.EvictAfterFailure?) && s.shared.serverIp != "") then s.shared.sx
    else None
  }

  /** A step rewrites its own task and, if it displaces a channel, adds a notice. */
  lemma TasksAfter(s: State, step: Step)
    requires Next(s, step).Some?
    ensures var after := Next(s, step).value.tasks;
      var own := if KeepsTasks(step) then s.tasks
                 else s.tasks[step.t := TaskOf(Next(s, step).value, step.t)];
      after == if Displaced(s, step).Some? then own[step.spare := Noticing(Displaced(s, step).value)] else own
    ensures Displaced(s, step).Some? ==> step.spare !in s.tasks && (step.Evict? || step.t != step.spare)
  {
    hide Outboxes.Next, Wire.MakeDisconnect, Close, NewOutbox, SendOf, IsHandlerStep;
  }

  function Bit(b: bool): int {
    if b then 1 else 0
  }

  /** The flag and the acting task's debt change together. */
  lemma FlagFollowsTask(s: State, step: Step)
    requires Next(s, step).Some?
    requires !step.Evict? && OwesReset(TaskOf(s, step.t)) ==> s.shared.isTryConnect
    ensures var after := Next(s, step).value;
      Bit(after.shared.isTryConnect) - Bit(s.shared.isTryConnect) ==
        if KeepsTasks(step) then 0
        else Bit(OwesReset(TaskOf(after, step.t))) - Bit(OwesReset(TaskOf(s, step.t)))
  {
    hide Outboxes.Next, Wire.MakeDisconnect, Close, NewOutbox, SendOf, IsHandlerStep;
  }

  lemma DebtsAfter(s: State, step: Step)
    requires Next(s, step).Some?
    ensures var after := Next(s, step).value;
      |Owing(after.tasks)| - |Owing(s.tasks)| ==
        if KeepsTasks(step) then 0
        else Bit(OwesReset(TaskOf(after, step.t))) - Bit(OwesReset(TaskOf(s, step.t)))
  {
    TasksAfter(s, step);
    hide Next, Owing;
    var after := Next(s, step).value;
    var own := s.tasks;
    if !KeepsTasks(step) {
      own := s.tasks[step.t := TaskOf(after, step.t)];
      OwingUpdate(s.tasks, step.t, TaskOf(after, step.t));
    }
    if Displaced(s, step).Some? {
      OwingUpdate(own, step.spare, Noticing(Displaced(s, step).value));
    }
  }

  lemma StepKeepsSingleFlight(s: State, step: Step)
    requires SingleFlight(s) && Next(s, step).Some?
    ensures SingleFlight(Next(s, step).value)
  {
    if !step.Evict? && step.t in s.tasks && OwesReset(s.tasks[step.t]) {
      OneOwner(s, step.t, step.t);
    }
    FlagFollowsTask(s, step);
    DebtsAfter(s, step);
    hide Next;
  }

  lemma ScanFlagFollowsTask(s: State, step: Step)
    requires Next(s, step).Some?
    requires !step.Evict? && TaskOf(s, step.t).Scanning? ==> s.shared.isScanning
    ensures var after := Next(s, step).value;
      Bit(after.shared.isScanning) - Bit(s.shared.isScanning) ==
        if KeepsTasks(step) then 0 else Bit(TaskOf(after, step.t).Scanning?) - Bit(TaskOf(s, step.t).Scanning?)
  {
    hide Outboxes.Next, Wire.MakeDisconnect, Close, NewOutbox, SendOf, IsHandlerStep;
  }

  lemma StepKeepsSingleScan(s: State, step: Step)
    requires SingleScan(s) && Next(s, step).Some?
    ensures SingleScan(Next(s, step).value)
  {
    if !step.Evict? && TaskOf(s, step.t).Scanning? {
      assert step.t in ScansOpen(s.tasks);
    }
    ScanFlagFollowsTask(s, step);
    TasksAfter(s, step);
    hide Next, ScansOpen;
    var after := Next(s, step).value;
    var own := s.tasks;
    if !KeepsTasks(step) {
      own := s.tasks[step.t := TaskOf(after, step.t)];
      ScansUpdate(s.tasks, step.t, TaskOf(after, step.t));
    }
    if Displaced(s, step).Some? {
      ScansUpdate(own, step.spare, Noticing(Displaced(s, step).value));
    }
  }

  lemma OwnTaskFits(s: State, step: Step)
    requires SenderHasAddress(s) && Next(s, step).Some?
    ensures SenderFits(Next(s, step).value)
    ensures s.channels.Keys <= Next(s, step).value.channels.Keys
    ensures !KeepsTasks(step) ==>
      var after := Next(s, step).value;
      TaskFits(after.channels, TaskOf(after, step.t)) && (TaskOf(after, step.t).Session? ==> step.t in after.channels)
  {
    hide Outboxes.Next, Wire.MakeDisconnect, Close, NewOutbox, SendOf, IsHandlerStep;
  }

  lemma StepKeepsAddresses(s: State, step: Step)
    requires SenderHasAddress(s) && Next(s, step).Some?
    ensures SenderHasAddress(Next(s, step).value)
  {
    OwnTaskFits(s, step);
    TasksAfter(s, step);
    hide Next;
    assert Displaced(s, step).Some? ==> Displaced(s, step).value in s.channels;
    hide SenderFits, Displaced;
    var after := Next(s, step).value;
    forall t | t in after.tasks
      ensures TaskFits(after.channels, after.tasks[t]) && (after.tasks[t].Session? ==> t in after.channels)
    {
      if t in s.tasks && after.tasks[t] == s.tasks[t] {
        FitsStill(s.channels, after.channels, s.tasks[t]);
      }
    }
  }

  lemma FitsStill(channels: map<TaskId, Outbox>, more: map<TaskId, Outbox>, task: Task)
    requires TaskFits(channels, task) && channels.Keys <= more.Keys
    ensures TaskFits(more, task)
  {
  }

  /** A notice is never lost while the loop it is meant for runs. */
  lemma NoticePersists(s: State, step: Step, c: TaskId)
    requires Next(s, step).Some? && LoopRuns(Next(s, step).value, c)
    requires Notified(s, c) && LoopRuns(s, c) && s.channels[c].open
    ensures Notified(Next(s, step).value, c)
  {
    hide Wire.MakeDisconnect, Outboxes.Next, DisconnectDue;
    var after := Next(s, step).value;
    if DisconnectDue(s.channels[c]) {
      if (step.WriterStep? || step.SlotStep?) && step.t == c {
        StepKeepsDue(s.channels[c], step.step);
      } else if step.Deliver? && s.tasks[step.t].channel == c {
        StepKeepsDue(s.channels[c], Ask(SendOf(s.tasks[step.t], step.peer)));
      }
    } else {
      var n :| n in s.tasks && s.tasks[n] == Noticing(c);
      if step.Deliver? && step.t == n {
        NoticeIsDue(s.channels[c], step.peer);
      } else {
        assert after.tasks[n] == Noticing(c);
      }
    }
  }

  /** Whatever step takes a channel out of `sx` leaves a notice for it. */
  lemma DisplacedIsNotified(s: State, step: Step)
    requires SenderHasAddress(s) && Next(s, step).Some?
    requires s.shared.sx.Some? && Next(s, step).value.shared.sx != s.shared.sx
    ensures Notified(Next(s, step).value, s.shared.sx.value)
  {
    hide Wire.MakeDisconnect, Outboxes.Next;
    assert Displaced(s, step) == s.shared.sx;
    assert Next(s, step).value.tasks[step.spare] == Noticing(s.shared.sx.value);
  }

  lemma LoopKeepsSender(s: State, step: Step, u: TaskId)
    requires Inv(s) && Next(s, step).Some? && LoopRuns(Next(s, step).value, u)
    ensures var after := Next(s, step).value;
      after.channels[u].open && (after.shared.sx == Some(u) || (after.shared.sx == None && Notified(after, u)))
  {
    hide Wire.MakeDisconnect, SingleFlight, SingleScan, SenderHasAddress, WiresValid, Notified, Outboxes.Next;
    var after := Next(s, step).value;
    if step.WriterStep? || step.SlotStep? {
      RunningWasRunning(s.channels[step.t], step.step);
    } else if step.Deliver? {
      RunningWasRunning(s.channels[s.tasks[step.t].channel], Ask(SendOf(s.tasks[step.t], step.peer)));
    }
    if step.AddToSender? {
      if u != step.t {
        OneOwner(s, step.t, u);
      }
    } else {
      assert LoopRuns(s, u);
      if s.shared.sx == Some(u) {
        if after.shared.sx != s.shared.sx {
          DisplacedIsNotified(s, step);
        }
      } else {
        NoticePersists(s, step, u);
      }
    }
  }

  lemma StepKeepsInv(s: State, step: Step)
    requires Inv(s) && Next(s, step).Some?
    ensures Inv(Next(s, step).value)
  {
    StepKeepsSingleFlight(s, step);
    StepKeepsSingleScan(s, step);
    StepKeepsAddresses(s, step);
    forall u | LoopRuns(Next(s, step).value, u)
      ensures var after := Next(s, step).value;
        after.channels[u].open && (after.shared.sx == Some(u) || (after.shared.sx == None && Notified(after, u)))
    {
      LoopKeepsSender(s, step, u);
    }
    StepKeepsWires(s, step);
  }

  /** What a step does to channel `c`, seen from that channel. */
  function MoveOf(s: State, step: Step, c: TaskId): Option<OutboxStep>
    requires Next(s, step).Some?
  {
    if (step.WriterStep? || step.SlotStep?) && step.t == c then Some(step.step)
    else if step.Deliver? && s.tasks[step.t].channel == c then Some(Ask(SendOf(s.tasks[step.t], step.peer)))
    else None
  }

  predicate Creates(step: Step, c: TaskId) {
    step.AddToSender? && step.t == c
  }

  /** It makes it, closes it, moves it on, or leaves it alone. */
  lemma ChannelMoves(s: State, step: Step, c: TaskId)
    requires Next(s, step).Some?
    ensures var after := Next(s, step).value.channels;
      && (c in after <==> c in s.channels || Creates(step, c))
      && (Creates(step, c) ==> after[c] == NewOutbox(step.capacity, Opening))
      && (c in s.channels && !Creates(step, c) ==>
            if MoveOf(s, step, c).Some? then Outboxes.Next(s.channels[c], MoveOf(s, step, c).value) == Some(after[c])
            else after[c] == s.channels[c] || after[c] == Close(s.channels[c]))
  {
    hide Wire.MakeDisconnect, Outboxes.Next, Close, NewOutbox, SendOf, IsHandlerStep;
  }

  lemma NewIsValid(capacity: nat)
    ensures Valid(NewOutbox(capacity, Opening))
  {
  }

  lemma StepKeepsWires(s: State, step: Step)
    requires WiresValid(s) && Next(s, step).Some?
    ensures WiresValid(Next(s, step).value)
  {
    var after := Next(s, step).value.channels;
    forall c | c in after
      ensures Valid(after[c])
    {
      ChannelMoves(s, step, c);
      hide Next, Outboxes.Next, Valid, Close, NewOutbox, MoveOf;
      if Creates(step, c) {
        NewIsValid(step.capacity);
      } else if MoveOf(s, step, c).Some? {
        StepKeepsValid(s.channels[c], MoveOf(s, step, c).value);
      } else {
        CloseKeepsValid(s.channels[c]);
      }
    }
  }

  // ------------------------------------------------------------- whole runs

  function Run(s: State, steps: seq<Step>): Option<State>
    decreases |steps|
  {
    if steps == [] then Some(s)
    else
      var next := Next(s, steps[0]);
      if next.None? then None else Run(next.value, steps[1..])
  }

  ghost predicate Reachable(s: State) {
    exists serverIp, usePing, steps :: Run(Init(serverIp, usePing), steps) == Some(s)
  }

  lemma {:induction false} RunKeepsInv(s: State, steps: seq<Step>)
    requires Inv(s) && Run(s, steps).Some?
    ensures Inv(Run(s, steps).value)
    decreases |steps|
  {
    hide Next, Inv;
    if steps != [] {
      StepKeepsInv(s, steps[0]);
      RunKeepsInv(Next(s, steps[0]).value, steps[1..]);
    }
  }

  lemma ReachableInv(s: State)
    requires Reachable(s)
    ensures Inv(s)
  {
    hide Run, Next;
    var serverIp, usePing, steps :| Run(Init(serverIp, usePing), steps) == Some(s);
    assert Owing(map[]) == {} && ScansOpen(map[]) == {};
    RunKeepsInv(Init(serverIp, usePing), steps);
  }

  /** However many triggers race: the flag says exactly whether some attempt
      holds the guard or a dropped guard's reset is still to run, at most one
      task is in either position, and nothing dials or runs a session without it. */
  lemma OneAttemptAtATime(s: State)
    requires Reachable(s)
    ensures s.shared.isTryConnect <==> exists t :: t in s.tasks && OwesReset(s.tasks[t])
    ensures forall t, u :: t in s.tasks && u in s.tasks && OwesReset(s.tasks[t]) && OwesReset(s.tasks[u]) ==> t == u
    ensures s.shared.isScanning <==> exists t :: t in s.tasks && s.tasks[t].Scanning?
    ensures forall t, u :: t in s.tasks && u in s.tasks && s.tasks[t].Scanning? && s.tasks[u].Scanning? ==> t == u
  {
    ReachableInv(s);
    forall t, u | t in s.tasks && u in s.tasks && OwesReset(s.tasks[t]) && OwesReset(s.tasks[u])
      ensures t == u && s.shared.isTryConnect
    {
      OneOwner(s, t, u);
    }
    if s.shared.isTryConnect {
      var t :| t in Owing(s.tasks);
    }
    if s.shared.isScanning {
      var t :| t in ScansOpen(s.tasks);
    }
    forall t, u | t in s.tasks && u in s.tasks && s.tasks[t].Scanning? && s.tasks[u].Scanning?
      ensures t == u && s.shared.isScanning
    {
      assert t in ScansOpen(s.tasks) && u in ScansOpen(s.tasks);
      assert |ScansOpen(s.tasks) - {t}| == |ScansOpen(s.tasks)| - 1;
    }
  }

  /** A stream found by a scan, like any other attempt, gets past its claim only
      when nothing else holds or owes the guard. */
  lemma ClaimNeedsFreeGuard(s: State, step: Step, t: TaskId)
    requires Reachable(s) && Next(s, step).Some?
    requires !HoldsGuard(TaskOf(s, t)) && HoldsGuard(TaskOf(Next(s, step).value, t))
    ensures step == Claim(t) && TaskOf(s, t).Claiming?
    ensures !s.shared.isTryConnect && forall u :: u in s.tasks ==> !OwesReset(s.tasks[u])
  {
    hide Outboxes.Next, Wire.MakeDisconnect, Close, NewOutbox, SendOf, IsHandlerStep;
    OneAttemptAtATime(s);
  }

  /** Every client connection, in every reachable state: the wire is what the
      writer loop alone would have made of the frames it took from the channel. */
  lemma ClientWiresStop(s: State, c: TaskId)
    requires Reachable(s) && c in s.channels
    ensures var o := s.channels[c];
      && o.taken + o.queue == o.accepted
      && LoopOutput(o.taken, Writes(o), o.wire, o.writer == Exited(Stopped))
      && (o.writer.Idle? && o.queue == [] ==> o.wire == o.accepted)
  {
    ReachableInv(s);
    InterleavedLoopOutput(s.channels[c]);
  }

  /** A reset that runs late finds the flag still its own: no attempt holds the
      guard before it or after it. */
  lemma LateResetIsHarmless(s: State, t: TaskId)
    requires Reachable(s) && Next(s, RunReset(t)).Some?
    ensures s.shared.isTryConnect && !Next(s, RunReset(t)).value.shared.isTryConnect
    ensures forall u :: u in s.tasks ==> !HoldsGuard(s.tasks[u])
    ensures forall u :: u in Next(s, RunReset(t)).value.tasks ==> !OwesReset(Next(s, RunReset(t)).value.tasks[u])
  {
    OneAttemptAtATime(s);
    assert TaskOf(s, t).ResetPending?;
  }

  /** `add` only ever displaces a channel whose writer loop has ended. */
  lemma AddDisplacesOnlyEndedLoops(s: State, t: TaskId, spare: TaskId, capacity: nat)
    requires Reachable(s) && Next(s, AddToSender(t, spare, capacity)).Some?
    ensures forall u :: u in s.tasks ==> !LoopRuns(s, u)
    ensures s.shared.sx.Some? ==> !LoopRuns(s, s.shared.sx.value)
  {
    OneAttemptAtATime(s);
    assert TaskOf(s, t).Adding?;
  }

  /** Whenever a writer loop runs, the stored sender is its own channel or gone
      with a Disconnect on its way to that channel. */
  lemma RunningLoopOwnsSender(s: State, t: TaskId)
    requires Reachable(s) && LoopRuns(s, t)
    ensures s.shared.isTryConnect
    ensures s.shared.sx == Some(t) || (s.shared.sx == None && Notified(s, t))
  {
    ReachableInv(s);
    OneAttemptAtATime(s);
    assert OwesReset(s.tasks[t]);
  }

  /** `remove_ip` always takes the stored sender, tells a running loop to end,
      and no later step gives that loop the sender back. */
  lemma EvictionIsFinal(s: State, evict: Step, t: TaskId, steps: seq<Step>)
    requires Reachable(s) && LoopRuns(s, t) && evict.Evict? && Next(s, evict).Some?
    requires Run(Next(s, evict).value, steps).Some? && LoopRuns(Run(Next(s, evict).value, steps).value, t)
    ensures Next(s, evict).value.shared.sx == None && Notified(Next(s, evict).value, t)
    ensures var later := Run(Next(s, evict).value, steps).value; later.shared.sx == None && Notified(later, t)
  {
    hide Notified, Inv;
    ReachableInv(s);
    StepKeepsInv(s, evict);
    EvictionTakesSender(s, evict);
    LoopKeepsSender(s, evict, t);
    EvictedStaysEvicted(Next(s, evict).value, t, steps);
  }

  lemma RunningLoopHasSender(s: State, t: TaskId)
    requires Inv(s) && LoopRuns(s, t)
    ensures s.shared.sx == Some(t) || (s.shared.sx == None && Notified(s, t))
  {
  }

  lemma EvictionTakesSender(s: State, evict: Step)
    requires Inv(s) && evict.Evict? && Next(s, evict).Some?
    ensures Next(s, evict).value.shared.sx == None
    ensures forall t :: LoopRuns(s, t) ==> LoopRuns(Next(s, evict).value, t) && PastAdd(Next(s, evict).value, t)
  {
  }

  lemma {:induction false} EvictedStaysEvicted(s: State, t: TaskId, steps: seq<Step>)
    requires Inv(s) && s.shared.sx == None && PastAdd(s, t)
    requires Run(s, steps).Some? && LoopRuns(Run(s, steps).value, t)
    ensures Run(s, steps).value.shared.sx == None && Notified(Run(s, steps).value, t)
    decreases |steps|
  {
    hide Next, Inv, PastAdd, LoopRuns, Notified;
    if steps == [] {
      RunningLoopHasSender(s, t);
    } else {
      var after := Next(s, steps[0]).value;
      StepKeepsInv(s, steps[0]);
      StepKeepsPast(s, steps[0], t);
      if LoopRuns(after, t) {
        LoopKeepsSender(s, steps[0], t);
        EvictedStaysEvicted(after, t, steps[1..]);
      } else {
        EndedLoopStaysEnded(after, t, steps[1..]);
      }
    }
  }

  /** Task `t` will not call `add` any more. */
  predicate PastAdd(s: State, t: TaskId) {
    t in s.tasks && (s.tasks[t].Session? || s.tasks[t].Finished? || s.tasks[t].ResetPending? || s.tasks[t].Done?)
  }

  lemma StepKeepsPast(s: State, step: Step, t: TaskId)
    requires PastAdd(s, t) && Next(s, step).Some?
    ensures PastAdd(Next(s, step).value, t)
    ensures LoopRuns(Next(s, step).value, t) ==> LoopRuns(s, t)
    ensures s.shared.sx == None ==> Next(s, step).value.shared.sx != Some(t)
  {
    PastStays(s, step, t);
    ChannelMoves(s, step, t);
    PastAddCreatesNothing(s, step, t);
    if t in s.channels && MoveOf(s, step, t).Some? {
      RunningWasRunning(s.channels[t], MoveOf(s, step, t).value);
    }
    hide Next, Outboxes.Next, MoveOf;
  }

  lemma PastStays(s: State, step: Step, t: TaskId)
    requires PastAdd(s, t) && Next(s, step).Some?
    ensures PastAdd(Next(s, step).value, t)
    ensures TaskOf(Next(s, step).value, t).Session? ==> TaskOf(s, t).Session?
    ensures s.shared.sx == None ==> Next(s, step).value.shared.sx != Some(t)
  {
    hide Wire.MakeDisconnect, Outboxes.Next, Close, NewOutbox, SendOf, IsHandlerStep;
  }

  lemma {:induction false} EndedLoopStaysEnded(s: State, t: TaskId, steps: seq<Step>)
    requires PastAdd(s, t) && !LoopRuns(s, t) && Run(s, steps).Some?
    ensures !LoopRuns(Run(s, steps).value, t)
    decreases |steps|
  {
    hide Next, LoopRuns, PastAdd;
    if steps != [] {
      StepKeepsPast(s, steps[0], t);
      EndedLoopStaysEnded(Next(s, steps[0]).value, t, steps[1..]);
    }
  }

  // ------------------------------------------------------- the end of a loop

  predicate IsDueStep(s: State, step: Step, c: TaskId) {
    step.WriterStep? && step.t == c && c in s.channels && !AwaitsSender(s.channels[c])
  }

  /** The writer steps of channel `c` in a run, apart from those it takes while
      all that is missing is a turn for a sender whose slot is there. */
  function DueSteps(s: State, steps: seq<Step>, c: TaskId): nat
    requires Run(s, steps).Some?
    decreases |steps|
  {
    if steps == [] then 0
    else (if IsDueStep(s, steps[0], c) then 1 else 0) + DueSteps(Next(s, steps[0]).value, steps[1..], c)
  }

  ghost predicate IsEnding(s: State, c: TaskId) {
    PastAdd(s, c) && WiresValid(s) && c in s.channels && Doomed(s.channels[c])
  }

  lemma PastAddCreatesNothing(s: State, step: Step, c: TaskId)
    requires PastAdd(s, c) && Next(s, step).Some?
    ensures !Creates(step, c)
  {
  }

  lemma StepKeepsEnding(s: State, step: Step, c: TaskId)
    requires IsEnding(s, c) && Next(s, step).Some?
    ensures IsEnding(Next(s, step).value, c)
    ensures StepsLeft(Next(s, step).value.channels[c]) + (if IsDueStep(s, step, c) then 1 else 0)
            <= StepsLeft(s.channels[c])
  {
    StepKeepsPast(s, step, c);
    StepKeepsWires(s, step);
    ChannelMoves(s, step, c);
    PastAddCreatesNothing(s, step, c);
    WireValid(s, c);
    var before, move := s.channels[c], MoveOf(s, step, c);
    hide Next, Outboxes.Next, Doomed, StepsLeft, AwaitsSender, WiresValid, PastAdd, Valid, Close;
    if move.Some? {
      StepKeepsDoom(before, move.value);
    } else {
      CloseEnds(before);
    }
  }

  lemma WireValid(s: State, c: TaskId)
    requires WiresValid(s) && c in s.channels
    ensures Valid(s.channels[c])
  {
  }

  lemma CloseEnds(o: Outbox)
    ensures Doomed(Close(o)) && StepsLeft(Close(o)) == 0
  {
  }

  lemma {:induction false} EndingLoopEnds(s: State, steps: seq<Step>, c: TaskId)
    requires IsEnding(s, c) && Run(s, steps).Some? && DueSteps(s, steps, c) >= StepsLeft(s.channels[c])
    ensures !LoopRuns(Run(s, steps).value, c)
    decreases |steps|
  {
    hide Next, StepsLeft, IsDueStep, IsEnding;
    if steps == [] {
      NoStepsLeft(s, c);
    } else {
      StepKeepsEnding(s, steps[0], c);
      EndingHasChannel(Next(s, steps[0]).value, c);
      EndingLoopEnds(Next(s, steps[0]).value, steps[1..], c);
    }
  }

  lemma EndingHasChannel(s: State, c: TaskId)
    requires IsEnding(s, c)
    ensures c in s.channels
  {
  }

  lemma NoStepsLeft(s: State, c: TaskId)
    requires IsEnding(s, c) && StepsLeft(s.channels[c]) == 0
    ensures !LoopRuns(s, c)
  {
  }

  /** An evicted session that keeps moving ends: from the moment its notice is
      sent, behind any number of blocked senders, its loop exits within two of
      its own steps for each slot of the channel and each sender before the
      notice, and five more, whatever all other tasks do. It fails to move only
      as `GuardOwnerMoves` says. */
  lemma NoticedLoopEnds(s: State, n: TaskId, c: TaskId, peer: Wire.Text, steps: seq<Step>)
    requires Reachable(s) && LoopRuns(s, c) && TaskOf(s, n) == Noticing(c)
    ensures Next(s, Deliver(n, peer)).Some?
    ensures var told := Next(s, Deliver(n, peer)).value;
      Run(told, steps).Some? && DueSteps(told, steps, c) >= 2 * (s.channels[c].capacity + |s.channels[c].waiting|) + 5
      ==> !LoopRuns(Run(told, steps).value, c)
  {
    ReachableInv(s);
    assert s.channels[c].open;
    hide Wire.MakeDisconnect, Doomed, StepsLeft, Reachable;
    var told := Next(s, Deliver(n, peer)).value;
    NoticeDooms(s.channels[c], peer);
    StepKeepsWires(s, Deliver(n, peer));
    StepsLeftBound(told.channels[c]);
    assert IsEnding(told, c);
    hide IsEnding, Run, DueSteps, Next, Inv, LoopRuns;
    if Run(told, steps).Some? && DueSteps(told, steps, c) >= 2 * (s.channels[c].capacity + |s.channels[c].waiting|) + 5 {
      EndingLoopEnds(told, steps, c);
    }
  }

  /** The same once the Disconnect is with the channel. */
  lemma DueLoopEnds(s: State, c: TaskId, steps: seq<Step>)
    requires Reachable(s) && LoopRuns(s, c) && DisconnectDue(s.channels[c]) && Run(s, steps).Some?
    requires DueSteps(s, steps, c) >= 2 * (s.channels[c].capacity + |s.channels[c].waiting|) + 3
    ensures !LoopRuns(Run(s, steps).value, c)
  {
    ReachableInv(s);
    DueIsDoomed(s.channels[c]);
    StepsLeftBound(s.channels[c]);
    hide Doomed, StepsLeft, Run, DueSteps, Reachable;
    EndingLoopEnds(s, steps, c);
  }

  // ------------------------------------------------ can the guard's owner move

  /** A step that the task takes by itself. */
  predicate IsOwnStep(step: Step, t: TaskId) {
    && !step.Evict? && step.t == t
    && (step.DialFails? || step.AddToSender? || step.EvictAfterFailure? || step.DropGuard? || step.RunReset?
        || step.WriterStep? || step.Finish?)
  }

  predicate IsChoked(s: State, t: TaskId) {
    TaskOf(s, t).Session? && t in s.channels && Choked(s.channels[t])
  }

  lemma {:induction false} UnusedId(ids: set<TaskId>) returns (n: TaskId)
    ensures forall i :: i in ids ==> i < n
  {
    if ids == {} {
      n := 0;
    } else {
      var i :| i in ids;
      var m := UnusedId(ids - {i});
      assert forall j :: j in ids ==> j == i || j in ids - {i};
      n := if i < m then m else i + 1;
    }
  }

  /** Whoever holds or owes the guard has a step of its own to take, or a sender
      into its channel has, unless it waits to send its Ping into a channel
      whose every slot holds a frame. */
  lemma GuardOwnerMoves(s: State, t: TaskId)
    requires Reachable(s) && OwesReset(TaskOf(s, t)) && !IsChoked(s, t)
    ensures || (exists step :: IsOwnStep(step, t) && Next(s, step).Some?)
            || Next(s, SlotStep(t, Put(0))).Some?
  {
    ReachableInv(s);
    var spare := UnusedId(s.tasks.Keys);
    var task := TaskOf(s, t);
    if task.Session? {
      SessionMoves(s, t);
    } else {
      hide Outboxes.Next, Wire.MakeDisconnect, Close, NewOutbox, SendOf, IsHandlerStep;
      var step := match task
        case Dialing(_, _) => DialFails(t)
        case Adding(_) => AddToSender(t, spare, 1)
        case Evicting => EvictAfterFailure(t, spare)
        case Dropping => DropGuard(t)
        case _ => RunReset(t);
      assert IsOwnStep(step, t) && Next(s, step).Some?;
    }
  }

  lemma SessionMoves(s: State, t: TaskId)
    requires Inv(s) && TaskOf(s, t).Session? && !IsChoked(s, t)
    ensures || (exists step :: IsOwnStep(step, t) && Next(s, step).Some?)
            || Next(s, SlotStep(t, Put(0))).Some?
  {
    var o := s.channels[t];
    WireValid(s, t);
    if o.writer.Exited? {
      hide Outboxes.Next, Inv, Choked;
      assert IsOwnStep(Finish(t), t) && Next(s, Finish(t)).Some?;
    } else if o.writer == Opening {
      assert o.open;
      UnopenedMoves(s, t);
    } else {
      UnchokedMoves(o);
      hide Inv, Valid, Choked;
      LoopMoves(s, t);
    }
  }

  lemma UnopenedMoves(s: State, t: TaskId)
    requires TaskOf(s, t).Session? && t in s.channels && s.channels[t].writer == Opening && s.channels[t].open
    ensures exists step :: IsOwnStep(step, t) && Next(s, step).Some?
  {
    hide Wire.MakePing;
    var os := if s.usePing then Greet([]) else SkipGreeting;
    assert Outboxes.Next(s.channels[t], os).Some?;
    hide Outboxes.Next;
    assert IsOwnStep(WriterStep(t, os), t) && Next(s, WriterStep(t, os)).Some?;
  }

  lemma LoopMoves(s: State, t: TaskId)
    requires TaskOf(s, t).Session? && t in s.channels
    requires (exists os :: IsLoopStep(os) && Outboxes.Next(s.channels[t], os).Some?)
             || Outboxes.Next(s.channels[t], Put(0)).Some?
    ensures || (exists step :: IsOwnStep(step, t) && Next(s, step).Some?)
            || Next(s, SlotStep(t, Put(0))).Some?
  {
    hide Outboxes.Next;
    if os :| IsLoopStep(os) && Outboxes.Next(s.channels[t], os).Some? {
      assert IsOwnStep(WriterStep(t, os), t) && Next(s, WriterStep(t, os)).Some?;
    }
  }

  /** With pings on, a session whose sender is still stored goes past its opening
      only by its own Ping: it first asks for a slot, and then that Ping is put
      in the queue. */
  lemma OpensOnlyByPing(s: State, step: Step, t: TaskId)
    requires Next(s, step).Some? && t in s.channels && !Creates(step, t)
    ensures var before, after := s.channels[t], Next(s, step).value.channels[t];
      && (before.writer == Opening && after.writer == Starting ==> !s.usePing || s.shared.sx == None)
      && (before.writer == Opening && after.writer == Greeting ==>
            s.usePing && exists peer :: after == Enter(before.(writer := Greeting), OpeningSend(peer)))
      && (before.writer == Greeting && after.writer == Starting ==>
            step.SlotStep? && step.step.Put? && step.step.k < |before.granted| && before.granted[step.step.k].opens)
  {
    ChannelMoves(s, step, t);
    if step.WriterStep? && step.t == t {
      assert IsHandlerStep(s, step.step);
      if step.step.Greet? {
        assert Next(s, step).value.channels[t] == Enter(s.channels[t].(writer := Greeting), OpeningSend(step.step.peer));
      }
    }
    hide Next, Wire.MakePing;
  }

  /** A choked session stays so, whatever any task does, until its task is
      dropped: it writes nothing, takes nothing, and keeps the guard. */
  lemma {:induction false} ChokedSessionHoldsGuard(s: State, steps: seq<Step>, t: TaskId)
    requires Inv(s) && IsChoked(s, t) && Run(s, steps).Some? && Cancel(t) !in steps
    ensures var end := Run(s, steps).value;
      && IsChoked(end, t) && end.shared.isTryConnect
      && end.channels[t].queue == s.channels[t].queue && end.channels[t].accepted == s.channels[t].accepted
    decreases |steps|
  {
    if steps == [] {
      OneOwner(s, t, t);
    } else {
      StepKeepsInv(s, steps[0]);
      StepKeepsChoked(s, steps[0], t);
      hide Next, Inv, IsChoked;
      assert Cancel(t) !in steps[1..];
      IsChokedHasChannel(Next(s, steps[0]).value, t);
      ChokedSessionHoldsGuard(Next(s, steps[0]).value, steps[1..], t);
      IsChokedHasChannel(Run(s, steps).value, t);
    }
  }

  lemma IsChokedHasChannel(s: State, t: TaskId)
    requires IsChoked(s, t)
    ensures t in s.channels
  {
  }

  lemma StepKeepsChoked(s: State, step: Step, t: TaskId)
    requires IsChoked(s, t) && Next(s, step).Some? && step != Cancel(t)
    ensures IsChoked(Next(s, step).value, t)
    ensures var before, after := s.channels[t], Next(s, step).value.channels[t];
      after.queue == before.queue && after.accepted == before.accepted
  {
    SessionStays(s, step, t);
    ChannelMoves(s, step, t);
    PastAddCreatesNothing(s, step, t);
    hide Next, Outboxes.Next, Choked, MoveOf;
    if MoveOf(s, step, t).Some? {
      ChokedStays(s.channels[t], MoveOf(s, step, t).value);
    }
  }

  /** Only `Finish` and `Cancel` end a session. */
  lemma SessionStays(s: State, step: Step, t: TaskId)
    requires TaskOf(s, t).Session? && t in s.channels && !s.channels[t].writer.Exited?
    requires Next(s, step).Some? && step != Cancel(t)
    ensures TaskOf(Next(s, step).value, t).Session?
    ensures t in s.channels && MoveOf(s, step, t).None? ==> Next(s, step).value.channels[t] == s.channels[t]
  {
    hide Wire.MakeDisconnect, Outboxes.Next, Close, NewOutbox, SendOf, IsHandlerStep;
  }

  /** Such a session: with one slot, one frame from elsewhere gets in between
      `add` and the Ping. */
  lemma ChokedIsReachable(frame: Wire.Frame, peer: Wire.Text)
    ensures var steps :=
        [SpawnAttempt(0, External, "ws://h"), Claim(0), DialSucceeds(0), AddToSender(0, 2, 1),
         SpawnSend(1, frame), Deliver(1, peer), SlotStep(0, Put(0)), WriterStep(0, Greet(peer))];
      Run(Init("", true), steps).Some? && IsChoked(Run(Init("", true), steps).value, 0)
  {
    var s0 := Init("", true);
    var s4 := s0.(shared := SS.SenderState(Some(0), "ws://h", 0, true, false), tasks := map[0 := Session],
                  channels := map[0 := NewOutbox(1, Opening)]);
    var connect := [SpawnAttempt(0, External, "ws://h"), Claim(0), DialSucceeds(0), AddToSender(0, 2, 1)];
    var choke := [SpawnSend(1, frame), Deliver(1, peer), SlotStep(0, Put(0)), WriterStep(0, Greet(peer))];
    ConnectSteps(s0, s4);
    ChokeSteps(s4, frame, peer);
    hide Run, Next, IsChoked;
    RunAppend(s0, connect, choke);
    assert connect + choke ==
      [SpawnAttempt(0, External, "ws://h"), Claim(0), DialSucceeds(0), AddToSender(0, 2, 1),
       SpawnSend(1, frame), Deliver(1, peer), SlotStep(0, Put(0)), WriterStep(0, Greet(peer))];
  }

  lemma {:induction false} RunAppend(s: State, a: seq<Step>, b: seq<Step>)
    requires Run(s, a).Some?
    ensures Run(s, a + b) == Run(Run(s, a).value, b)
    decreases |a|
  {
    hide Next;
    if a == [] {
      assert a + b == b;
    } else {
      assert (a + b)[0] == a[0] && (a + b)[1..] == a[1..] + b;
      RunAppend(Next(s, a[0]).value, a[1..], b);
    }
  }

  lemma RunOfFour(s: State, a: Step, b: Step, c: Step, d: Step, s1: State, s2: State, s3: State, s4: State)
    requires Next(s, a) == Some(s1) && Next(s1, b) == Some(s2) && Next(s2, c) == Some(s3) && Next(s3, d) == Some(s4)
    ensures Run(s, [a, b, c, d]) == Some(s4)
  {
    hide Next;
    assert [a, b, c, d][1..] == [b, c, d] && [b, c, d][1..] == [c, d] && [c, d][1..] == [d] && [d][1..] == [];
    assert Run(s4, []) == Some(s4);
    assert Run(s3, [d]) == Some(s4);
    assert Run(s2, [c, d]) == Some(s4);
    assert Run(s1, [b, c, d]) == Some(s4);
  }

  lemma ConnectSteps(s0: State, s4: State)
    requires s0 == Init("", true)
    requires s4 == s0.(shared := SS.SenderState(Some(0), "ws://h", 0, true, false), tasks := map[0 := Session],
                       channels := map[0 := NewOutbox(1, Opening)])
    ensures Run(s0, [SpawnAttempt(0, External, "ws://h"), Claim(0), DialSucceeds(0), AddToSender(0, 2, 1)]) == Some(s4)
  {
    var held := SS.SenderState(None, "", 0, true, false);
    var s1 := s0.(tasks := map[0 := Claiming(External, "ws://h")]);
    var s2 := s0.(shared := held, tasks := map[0 := Dialing(External, "ws://h")]);
    var s3 := s0.(shared := held, tasks := map[0 := Adding("ws://h")]);
    assert s1.tasks[0 := Dialing(External, "ws://h")] == s2.tasks;
    assert s2.tasks[0 := Adding("ws://h")] == s3.tasks && s3.tasks[0 := Session] == s4.tasks;
    RunOfFour(s0, SpawnAttempt(0, External, "ws://h"), Claim(0), DialSucceeds(0), AddToSender(0, 2, 1), s1, s2, s3, s4);
  }

  lemma ChokeSteps(s4: State, frame: Wire.Frame, peer: Wire.Text)
    requires s4.shared.sx == Some(0) && s4.usePing
    requires s4.tasks == map[0 := Session] && s4.channels == map[0 := NewOutbox(1, Opening)]
    ensures var last := Run(s4, [SpawnSend(1, frame), Deliver(1, peer), SlotStep(0, Put(0)), WriterStep(0, Greet(peer))]);
      last.Some? && IsChoked(last.value, 0)
  {
    var o6, o7, o8 := ChokingSteps(frame, peer);
    hide Outboxes.Next, Wire.MakeDisconnect, Choked, NewOutbox;
    var s5 := s4.(tasks := map[0 := Session, 1 := Sending(0, frame)]);
    var s6 := s4.(tasks := map[0 := Session, 1 := Done], channels := map[0 := o6]);
    var s7, s8 := s6.(channels := map[0 := o7]), s6.(channels := map[0 := o8]);
    DeliverFirst(s4, s5, s6, frame, peer, o6);
    assert s6.channels[0 := o7] == s7.channels && s7.channels[0 := o8] == s8.channels;
    assert Next(s6, SlotStep(0, Put(0))) == Some(s7);
    assert Next(s7, WriterStep(0, Greet(peer))) == Some(s8);
    hide Next;
    RunOfFour(s4, SpawnSend(1, frame), Deliver(1, peer), SlotStep(0, Put(0)), WriterStep(0, Greet(peer)), s5, s6, s7, s8);
  }

  lemma DeliverFirst(s4: State, s5: State, s6: State, frame: Wire.Frame, peer: Wire.Text, o6: Outbox)
    requires s4.shared.sx == Some(0) && s4.tasks == map[0 := Session] && s4.channels == map[0 := NewOutbox(1, Opening)]
    requires s5 == s4.(tasks := map[0 := Session, 1 := Sending(0, frame)])
    requires s6 == s4.(tasks := map[0 := Session, 1 := Done], channels := map[0 := o6])
    requires Outboxes.Next(NewOutbox(1, Opening), Ask(Send(frame, false, false))) == Some(o6)
    ensures Next(s4, SpawnSend(1, frame)) == Some(s5) && Next(s5, Deliver(1, peer)) == Some(s6)
  {
    hide Outboxes.Next, Wire.MakeDisconnect, NewOutbox;
    assert s4.tasks[1 := Sending(0, frame)] == s5.tasks;
    assert s5.tasks[1 := Done] == s6.tasks && s4.channels[0 := o6] == s6.channels;
  }

  // --------------------------------------------------- what an attempt does

  /** Who writes which part of the shared record, and what. */
  lemma WritesExactly(s: State, step: Step)
    requires Next(s, step).Some?
    ensures var before, after := s.shared, Next(s, step).value.shared;
      && (after.isTryConnect != before.isTryConnect ==>
            if after.isTryConnect then step.Claim? else step.RunReset? || step.Finish?)
      && (after.isScanning != before.isScanning ==> if after.isScanning then step.ClaimScan? else step.EndScan?)
      && (step.AddToSender? ==> after.sx == Some(step.t) && after.serverIp == TaskOf(s, step.t).url)
      && (step.Evict? || step.EvictAfterFailure? ==>
            after.serverIp == "" && after.sx == if before.serverIp != "" then None else before.sx)
      && (!step.AddToSender? && !step.Evict? && !step.EvictAfterFailure? ==>
            after.sx == before.sx && after.serverIp == before.serverIp)
      && after.receivedTimes == before.receivedTimes
  {
    hide Outboxes.Next, Wire.MakeDisconnect, Close, NewOutbox, SendOf, IsHandlerStep;
  }

  /** How the task of an attempt moves on, exactly. */
  predicate MovesTo(s: State, step: Step, t: TaskId, before: Task, after: Task) {
    match before
    case Claiming(route, url) =>
      if s.shared.isTryConnect then after == Done
      else if route.ScanHandoff? then after == Adding(url) else after == Dialing(route, url)
    case Dialing(route, url) =>
      || (step == DialSucceeds(t) && url != "" && after == Adding(url))
      || (step == DialFails(t) && after == if route.Internal? then Evicting else Dropping)
      || (step == Cancel(t) && after == ResetPending)
    case Adding(_) => (step.AddToSender? && after == Session) || (step == Cancel(t) && after == ResetPending)
    case Session => (step == Finish(t) && after == Finished) || (step == Cancel(t) && after == ResetPending)
    case Evicting => (step.EvictAfterFailure? && after == Dropping) || (step == Cancel(t) && after == ResetPending)
    case Dropping => after == ResetPending
    case ScanStarting => after == if s.shared.isScanning then Done else Scanning
    case Scanning => after == Done || (after.Claiming? && after.route == ScanHandoff && after.url != "")
    case _ => after == Done
  }

  lemma OwnTaskMoves(s: State, step: Step)
    requires Next(s, step).Some? && !KeepsTasks(step) && step.t in s.tasks
    ensures MovesTo(s, step, step.t, s.tasks[step.t], TaskOf(Next(s, step).value, step.t))
  {
    hide Outboxes.Next, Wire.MakeDisconnect, Close, NewOutbox, SendOf, IsHandlerStep;
  }

  lemma AttemptMoves(s: State, step: Step, t: TaskId)
    requires Next(s, step).Some? && t in s.tasks && TaskOf(Next(s, step).value, t) != s.tasks[t]
    ensures MovesTo(s, step, t, s.tasks[t], TaskOf(Next(s, step).value, t))
  {
    TasksAfter(s, step);
    if !KeepsTasks(step) && step.t == t {
      OwnTaskMoves(s, step);
    }
    hide Next, MovesTo;
  }

  predicate SenderGone(s: State) {
    s.shared.sx == None && s.shared.serverIp == ""
  }

  /** A failed internal dial: about to evict, or past it with nothing left. */
  predicate FailedInternally(s: State, t: TaskId) {
    TaskOf(s, t).Evicting? || ((TaskOf(s, t).Dropping? || TaskOf(s, t).ResetPending?) && SenderGone(s))
  }

  lemma StepKeepsFailedInternally(s: State, step: Step, t: TaskId)
    requires Inv(s) && FailedInternally(s, t) && Next(s, step).Some? && step != Cancel(t) && step != RunReset(t)
    ensures FailedInternally(Next(s, step).value, t)
    ensures TaskOf(s, t).Evicting? && !TaskOf(Next(s, step).value, t).Evicting? ==> step.EvictAfterFailure? && step.t == t
  {
    AddHasSender(s, step, t);
    WritesExactly(s, step);
    NoStraySender(s);
    if TaskOf(Next(s, step).value, t) != s.tasks[t] {
      AttemptMoves(s, step, t);
    }
    hide Next, Inv;
  }

  /** No other task installs a sender while `t` holds or owes the guard. */
  lemma AddHasSender(s: State, step: Step, t: TaskId)
    requires SingleFlight(s) && OwesReset(TaskOf(s, t)) && Next(s, step).Some?
    ensures (step.AddToSender? || step.EvictAfterFailure? || step.Finish? || step.DropGuard? || step.RunReset?) ==> step.t == t
    ensures TaskOf(Next(s, step).value, t) == s.tasks[t] || (!step.Evict? && step.t == t)
  {
    hide Outboxes.Next, Wire.MakeDisconnect, Close, NewOutbox, SendOf, IsHandlerStep;
    if !step.Evict? && step.t in s.tasks && OwesReset(s.tasks[step.t]) {
      OneOwner(s, step.t, t);
    }
  }

  lemma NoStraySender(s: State)
    requires Inv(s)
    ensures s.shared.serverIp == "" ==> s.shared.sx == None
  {
  }

  /** A failed internal dial takes the stored sender and its address away: from
      the failure on, whatever other tasks do, the guard is not given back
      before the eviction, and after it there is neither sender nor address
      until the guard's reset. */
  lemma {:induction false} FailedInternalDialEvicts(s: State, t: TaskId, steps: seq<Step>)
    requires Inv(s) && FailedInternally(s, t) && Run(s, steps).Some?
    requires Cancel(t) !in steps && RunReset(t) !in steps
    ensures var end := Run(s, steps).value;
      TaskOf(end, t).Evicting? || ((TaskOf(end, t).Dropping? || TaskOf(end, t).ResetPending?) && SenderGone(end))
    ensures TaskOf(s, t).Evicting? && TaskOf(Run(s, steps).value, t).ResetPending? ==>
      exists spare :: EvictAfterFailure(t, spare) in steps
    decreases |steps|
  {
    hide Next, Inv;
    if steps != [] {
      var after := Next(s, steps[0]).value;
      StepKeepsInv(s, steps[0]);
      assert steps[0] in steps && Cancel(t) !in steps[1..] && RunReset(t) !in steps[1..];
      StepKeepsFailedInternally(s, steps[0], t);
      FailedInternalDialEvicts(after, t, steps[1..]);
      if TaskOf(s, t).Evicting? && TaskOf(Run(s, steps).value, t).ResetPending? {
        if TaskOf(after, t).Evicting? {
          var spare :| EvictAfterFailure(t, spare) in steps[1..];
          assert EvictAfterFailure(t, spare) in steps;
        } else {
          assert EvictAfterFailure(t, steps[0].spare) == steps[0];
        }
      }
    }
  }

  lemma InternalDialFailure(s: State, t: TaskId, steps: seq<Step>)
    requires Reachable(s) && TaskOf(s, t).Dialing? && TaskOf(s, t).route == Internal
    requires Next(s, DialFails(t)).Some? && Run(Next(s, DialFails(t)).value, steps).Some?
    requires Cancel(t) !in steps && RunReset(t) !in steps
    ensures var end := Run(Next(s, DialFails(t)).value, steps).value;
      TaskOf(end, t).ResetPending? ==>
        end.shared.sx == None && end.shared.serverIp == "" && exists spare :: EvictAfterFailure(t, spare) in steps
  {
    ReachableInv(s);
    StepKeepsInv(s, DialFails(t));
    assert FailedInternally(Next(s, DialFails(t)).value, t);
    assert TaskOf(Next(s, DialFails(t)).value, t).Evicting?;
    hide Next, Inv, Run;
    FailedInternalDialEvicts(Next(s, DialFails(t)).value, t, steps);
  }

  /** A failed external dial leaves the shared record alone. */
  predicate FailedExternally(s: State, t: TaskId, sx: Option<TaskId>, serverIp: string) {
    && (TaskOf(s, t).Dropping? || TaskOf(s, t).ResetPending?)
    && s.shared.sx == sx && s.shared.serverIp == serverIp
  }

  lemma {:induction false} FailedExternalStays(
    s: State, t: TaskId, steps: seq<Step>, sx: Option<TaskId>, serverIp: string)
    requires Inv(s) && FailedExternally(s, t, sx, serverIp) && Run(s, steps).Some?
    requires RunReset(t) !in steps && forall i :: 0 <= i < |steps| ==> !steps[i].Evict?
    ensures FailedExternally(Run(s, steps).value, t, sx, serverIp)
    decreases |steps|
  {
    if steps != [] {
      StepKeepsInv(s, steps[0]);
      AddHasSender(s, steps[0], t);
      WritesExactly(s, steps[0]);
      assert steps[0] in steps && !steps[0].Evict?;
      if TaskOf(Next(s, steps[0]).value, t) != s.tasks[t] {
        AttemptMoves(s, steps[0], t);
      }
      NoOwnAdd(s, steps[0], t);
      hide Next, Inv;
      FailedExternalStays(Next(s, steps[0]).value, t, steps[1..], sx, serverIp);
    }
  }

  lemma NoOwnAdd(s: State, step: Step, t: TaskId)
    requires (TaskOf(s, t).Dropping? || TaskOf(s, t).ResetPending?) && Next(s, step).Some?
    ensures step.AddToSender? || step.EvictAfterFailure? ==> step.t != t
    ensures TaskOf(s, t).ResetPending? && TaskOf(Next(s, step).value, t) != s.tasks[t] ==> step == RunReset(t)
  {
    hide Outboxes.Next, Wire.MakeDisconnect, Close, NewOutbox, SendOf, IsHandlerStep;
  }

  /** It changes nothing in the record, and until its reset the sender and the
      address stay what they were, whatever others do short of an eviction. */
  lemma ExternalDialFailure(s: State, t: TaskId, steps: seq<Step>)
    requires Reachable(s) && TaskOf(s, t).Dialing? && TaskOf(s, t).route == External
    requires Next(s, DialFails(t)).Some? && Run(Next(s, DialFails(t)).value, steps).Some?
    requires RunReset(t) !in steps && forall i :: 0 <= i < |steps| ==> !steps[i].Evict?
    ensures Next(s, DialFails(t)).value.shared == s.shared
    ensures var end := Run(Next(s, DialFails(t)).value, steps).value;
      end.shared.sx == s.shared.sx && end.shared.serverIp == s.shared.serverIp
  {
    ReachableInv(s);
    StepKeepsInv(s, DialFails(t));
    assert FailedExternally(Next(s, DialFails(t)).value, t, s.shared.sx, s.shared.serverIp);
    hide Inv, Run;
    FailedExternalStays(Next(s, DialFails(t)).value, t, steps, s.shared.sx, s.shared.serverIp);
  }

  /** An attempt that wins the guard and connects becomes the owner of the
      sender at its own URL. */
  lemma SuccessfulAttempt(s: State, t: TaskId, spare: TaskId, capacity: nat)
    requires t in s.tasks && s.tasks[t].Claiming? && s.tasks[t].route != ScanHandoff && s.tasks[t].url != ""
    requires !s.shared.isTryConnect && spare !in s.tasks && capacity > 0
    ensures var end := Run(s, [Claim(t), DialSucceeds(t), AddToSender(t, spare, capacity)]);
      && end.Some? && TaskOf(end.value, t) == Session && end.value.shared.isTryConnect
      && end.value.shared.sx == Some(t) && end.value.shared.serverIp == s.tasks[t].url
      && end.value.channels == s.channels[t := NewOutbox(capacity, Opening)]
  {
    hide NewOutbox, Wire.MakeDisconnect, Outboxes.Next;
    var s1 := Next(s, Claim(t)).value;
    var s2 := Next(s1, DialSucceeds(t)).value;
    var s3 := Next(s2, AddToSender(t, spare, capacity)).value;
    assert s3.tasks[t] == Session;
    hide Next;
    RunOfThree(s, Claim(t), DialSucceeds(t), AddToSender(t, spare, capacity), s1, s2, s3);
  }

  lemma RunOfThree(s: State, a: Step, b: Step, c: Step, s1: State, s2: State, s3: State)
    requires Next(s, a) == Some(s1) && Next(s1, b) == Some(s2) && Next(s2, c) == Some(s3)
    ensures Run(s, [a, b, c]) == Some(s3)
  {
    hide Next;
    assert [a, b, c][1..] == [b, c] && [b, c][1..] == [c] && [c][1..] == [];
    assert Run(s3, []) == Some(s3);
    assert Run(s2, [c]) == Some(s3);
    assert Run(s1, [b, c]) == Some(s3);
  }
}
