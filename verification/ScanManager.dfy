/** The subnet scan: overlapping rounds of dial tasks under a semaphore and a
    stop flag (src/helpers/scan_manager.rs:154-246), and the map they report to
    (src/helpers/traits/connection_state.rs:36-86). */
module ScanManagers {
  import opened Results

  type TaskId = nat
  type Ip = string

  datatype Status = Connecting | Connected | ConnectionRefused | TimedOut

  /** A stream is named after the task that dialed it. */
  datatype Entry = Entry(status: Status, isConnecting: bool, stream: Option<TaskId>)

  type States = map<Ip, Entry>

  predicate HasStream(e: Entry) {
    e.status == Connected && e.stream.Some?
  }

  function StartConnection(states: States, ip: Ip): States {
    states[ip := Entry(Connecting, true, None)]
  }

  function EndConnection(states: States, ip: Ip, status: Status, stream: Option<TaskId>): States {
    if ip in states then states[ip := Entry(status, false, stream)] else states
  }

  function TakeStream(states: States, ip: Ip): (Option<TaskId>, States) {
    if ip in states && states[ip].stream.Some?
    then (states[ip].stream, states[ip := states[ip].(stream := None)]) else (None, states)
  }

  predicate AnyConnected(states: States) {
    exists ip :: ip in states && HasStream(states[ip])
  }

  predicate IsConnecting(states: States, ip: Ip) {
    ip in states && states[ip].isConnecting
  }

  class ConnectionStates {
    var states: States

    method End(ip: Ip, status: Status, stream: Option<TaskId>)
      modifies this
      ensures states == EndConnection(old(states), ip, status, stream)
      ensures states.Keys == old(states).Keys && !IsConnecting(states, ip)
      ensures ip in states ==> states[ip].status == status && states[ip].stream == stream
      ensures forall a :: a in states && a != ip ==> states[a] == old(states)[a]
    {
      if ip in states {
        var state := states[ip];
        state := state.(status := status);
        state := state.(isConnecting := false);
        state := state.(stream := stream);
        states := states[ip := state];
      }
    }

    predicate IsConnected()
      reads this
    {
      AnyConnected(states)
    }

    /** Some connected entry gives up its stream, if there is one. */
    method GetConnectedIp() returns (r: Option<(Ip, TaskId)>)
      modifies this
      ensures r.Some? <==> old(IsConnected())
      ensures r.None? ==> states == old(states)
      ensures r.Some? ==> var (ip, stream) := r.value;
        ip in old(states) && HasStream(old(states)[ip]) && (Some(stream), states) == TakeStream(old(states), ip)
    {
      if ip :| ip in states && HasStream(states[ip]) {
        var stream := states[ip].stream;
        states := states[ip := states[ip].(stream := None)];
        return Some((ip, stream.value));
      }
      return None;
    }
  }

  // ------------------------------------------------------------- the scan

  datatype Task =
    | Spawned(ip: Ip)                  // before the first look at the flag
    | Waiting(ip: Ip)                  // on the semaphore
    | Permitted(ip: Ip)                // permit held, before the second look
    | Cleared(ip: Ip)                  // before `start_connection`
    | Dialing(ip: Ip)
    | Found(ip: Ip)                    // connected, before setting the flag
    | Storing(ip: Ip, status: Status)  // before `end_connection`
    | Done

  /** `looking` is the address `get_connected_ip` has found and not yet taken
      from. `late` and `holders` are history: the dials in flight when the flag
      was set together with those begun afterwards, and the tasks that held
      permits when it was set. */
  datatype Scan = Scan(
    max: nat, permits: nat, stop: bool, tasks: map<TaskId, Task>, states: States, looking: Option<Ip>,
    running: bool, handed: seq<TaskId>, late: set<TaskId>, holders: set<TaskId>)

  datatype Step =
    | Spawn(t: TaskId, ip: Ip)
    | FirstLook(t: TaskId)
    | Acquire(t: TaskId)
    | SecondLook(t: TaskId)
    | BeginDial(t: TaskId)
    | DialEnds(t: TaskId, status: Status)
    | SetFlag(t: TaskId)
    | Store(t: TaskId)
    | Find(ip: Ip)
    | TakeFound
    | TimeOut

  predicate HoldsPermit(task: Task) {
    task.Permitted? || task.Cleared? || task.Dialing? || task.Found? || task.Storing?
  }

  function Holders(tasks: map<TaskId, Task>): set<TaskId> {
    set t | t in tasks && HoldsPermit(tasks[t])
  }

  function InFlight(tasks: map<TaskId, Task>): set<TaskId> {
    set t | t in tasks && tasks[t].Dialing?
  }

  function TaskOf(s: Scan, t: TaskId): Task {
    if t in s.tasks then s.tasks[t] else Done
  }

  function WithTask(s: Scan, t: TaskId, task: Task): Scan {
    s.(tasks := s.tasks[t := task])
  }

  function RaiseFlag(s: Scan): Scan {
    if s.stop then s else s.(stop := true, late := InFlight(s.tasks), holders := Holders(s.tasks))
  }

  /** The checks before a round spawns a task for an address. */
  predicate IsConnectingAllowed(s: Scan, ip: Ip) {
    !s.stop && !IsConnecting(s.states, ip) && !AnyConnected(s.states)
  }

  function Next(s: Scan, step: Step): Option<Scan> {
    match step
    case Spawn(t, ip) =>
      if s.running && t !in s.tasks && IsConnectingAllowed(s, ip) then Some(WithTask(s, t, Spawned(ip))) else None
    case FirstLook(t) =>
      var task := TaskOf(s, t);
      if task.Spawned? then Some(WithTask(s, t, if s.stop then Done else Waiting(task.ip))) else None
    case Acquire(t) =>
      var task := TaskOf(s, t);
      if task.Waiting? && s.permits > 0
      then Some(WithTask(s, t, Permitted(task.ip)).(permits := s.permits - 1)) else None
    case SecondLook(t) =>
      var task := TaskOf(s, t);
      if !task.Permitted? then None
      else if s.stop then Some(WithTask(s, t, Done).(permits := s.permits + 1))
      else Some(WithTask(s, t, Cleared(task.ip)))
    case BeginDial(t) =>
      var task := TaskOf(s, t);
      if !task.Cleared? then None
      else
        Some(WithTask(s, t, Dialing(task.ip))
             .(states := StartConnection(s.states, task.ip), late := if s.stop then s.late + {t} else s.late))
    case DialEnds(t, status) =>
      var task := TaskOf(s, t);
      if !task.Dialing? || status == Connecting then None
      else Some(WithTask(s, t, if status == Connected then Found(task.ip) else Storing(task.ip, status)))
    case SetFlag(t) =>
      var task := TaskOf(s, t);
      if task.Found? then Some(WithTask(RaiseFlag(s), t, Storing(task.ip, Connected))) else None
    case Store(t) =>
      var task := TaskOf(s, t);
      if !task.Storing? then None
      else
        var stream := if task.status == Connected then Some(t) else None;
        Some(WithTask(s, t, Done)
             .(states := EndConnection(s.states, task.ip, task.status, stream), permits := s.permits + 1))
    case Find(ip) =>
      if s.running && ip in s.states && HasStream(s.states[ip]) then Some(s.(looking := Some(ip))) else None
    case TakeFound =>
      if !s.running || s.looking.None? then None
      else
        var (stream, states) := TakeStream(s.states, s.looking.value);
        Some(if stream.None? then s.(looking := None)
             else s.(looking := None, states := states, handed := s.handed + [stream.value], running := false))
    case TimeOut => if s.running && s.looking.None? then Some(RaiseFlag(s).(running := false)) else None
  }

  function Init(max: nat): Scan {
    Scan(max, max, false, map[], map[], None, true, [], {}, {})
  }

  ghost predicate PermitsAddUp(s: Scan) {
    s.permits + |Holders(s.tasks)| == s.max
  }

  ghost predicate LateWithinHolders(s: Scan) {
    if s.stop then
      && |s.holders| <= s.max && s.late <= s.holders
      && (forall t :: t in s.tasks && s.tasks[t].Cleared? ==> t in s.holders)
      && InFlight(s.tasks) <= s.late
    else s.late == {} == s.holders
  }

  /** A stored or handed-out stream belongs to a finished task, and is in one place. */
  ghost predicate StreamsMoved(s: Scan) {
    && (forall ip :: ip in s.states && s.states[ip].stream.Some? ==>
          TaskDone(s, s.states[ip].stream.value) && s.states[ip].stream.value !in s.handed)
    && (forall a, b :: a in s.states && b in s.states && SameStream(s.states[a], s.states[b]) ==> a == b)
    && (forall x :: x in s.handed ==> TaskDone(s, x))
    && |s.handed| <= 1 && (s.running ==> s.handed == [])
  }

  predicate SameStream(a: Entry, b: Entry) {
    a.stream.Some? && a.stream == b.stream
  }

  predicate TaskDone(s: Scan, t: TaskId) {
    t in s.tasks && s.tasks[t].Done?
  }

  lemma HoldersUpdate(tasks: map<TaskId, Task>, t: TaskId, task: Task)
    ensures |Holders(tasks[t := task])| == |Holders(tasks)|
      + (if HoldsPermit(task) then 1 else 0) - (if t in tasks && HoldsPermit(tasks[t]) then 1 else 0)
  {
    var before, after := Holders(tasks), Holders(tasks[t := task]);
    assert after - {t} == before - {t};
    assert |after - {t}| == |after| - (if t in after then 1 else 0);
    assert |before - {t}| == |before| - (if t in before then 1 else 0);
  }

  lemma StepKeepsPermits(s: Scan, step: Step)
    requires PermitsAddUp(s) && Next(s, step).Some?
    ensures PermitsAddUp(Next(s, step).value) && Next(s, step).value.max == s.max
  {
    if !step.Find? && !step.TakeFound? && !step.TimeOut? {
      HoldersUpdate(s.tasks, step.t, TaskOf(Next(s, step).value, step.t));
    }
  }

  lemma StepKeepsLate(s: Scan, step: Step)
    requires PermitsAddUp(s) && LateWithinHolders(s) && Next(s, step).Some?
    ensures LateWithinHolders(Next(s, step).value)
  {
  }

  lemma StepKeepsStreams(s: Scan, step: Step)
    requires StreamsMoved(s) && Next(s, step).Some?
    ensures StreamsMoved(Next(s, step).value)
  {
    if step.Store? {
      StoreKeepsStreams(s, step.t);
    } else if step.TakeFound? {
      TakeKeepsStreams(s);
    } else if step.BeginDial? {
      BeginDialKeepsStreams(s, step.t);
    } else {
      DoneStaysDone(s, step);
      var after := Next(s, step).value;
      assert after.states == s.states && after.handed == s.handed && (after.running ==> s.running);
      hide Next, TaskDone;
    }
  }

  lemma StoreKeepsStreams(s: Scan, t: TaskId)
    requires StreamsMoved(s) && Next(s, Store(t)).Some?
    ensures StreamsMoved(Next(s, Store(t)).value)
  {
    DoneStaysDone(s, Store(t));
    hide TaskDone;
  }

  lemma TakeKeepsStreams(s: Scan)
    requires StreamsMoved(s) && Next(s, TakeFound).Some?
    ensures StreamsMoved(Next(s, TakeFound).value)
  {
    DoneStaysDone(s, TakeFound);
    hide TaskDone;
  }

  lemma BeginDialKeepsStreams(s: Scan, t: TaskId)
    requires StreamsMoved(s) && Next(s, BeginDial(t)).Some?
    ensures StreamsMoved(Next(s, BeginDial(t)).value)
  {
    DoneStaysDone(s, BeginDial(t));
    hide TaskDone;
  }

  lemma DoneStaysDone(s: Scan, step: Step)
    requires Next(s, step).Some?
    ensures forall t :: TaskDone(s, t) ==> TaskDone(Next(s, step).value, t)
    ensures step.Store? ==> !TaskDone(s, step.t) && TaskDone(Next(s, step).value, step.t)
  {
  }

  /** A task that has marked an address and not yet reported on it. */
  predicate Dials(task: Task, ip: Ip) {
    (task.Dialing? || task.Found? || task.Storing?) && task.ip == ip
  }

  /** An address is marked as connecting only while some task dials it. */
  ghost predicate MarksAreCurrent(s: Scan) {
    forall ip :: IsConnecting(s.states, ip) ==> exists t :: t in s.tasks && Dials(s.tasks[t], ip)
  }

  lemma StepKeepsMarks(s: Scan, step: Step)
    requires MarksAreCurrent(s) && Next(s, step).Some?
    ensures MarksAreCurrent(Next(s, step).value)
  {
    var after := Next(s, step).value;
    forall ip | IsConnecting(after.states, ip)
      ensures exists t :: t in after.tasks && Dials(after.tasks[t], ip)
    {
      if step.BeginDial? && s.tasks[step.t].ip == ip {
        assert Dials(after.tasks[step.t], ip);
      } else {
        assert IsConnecting(s.states, ip);
        var t :| t in s.tasks && Dials(s.tasks[t], ip);
        assert t in after.tasks && Dials(after.tasks[t], ip);
      }
    }
  }

  /** From the moment an address is dialed no round spawns another task for it,
      until a task for it reports. */
  lemma DialedIsNotRespawned(s: Scan, step: Step, ip: Ip, u: TaskId)
    requires Next(s, step).Some?
    requires (step.BeginDial? && s.tasks[step.t].ip == ip)
             || (IsConnecting(s.states, ip) && !(step.Store? && s.tasks[step.t].ip == ip))
    ensures IsConnecting(Next(s, step).value.states, ip)
    ensures Next(Next(s, step).value, Spawn(u, ip)).None?
  {
  }

  /** A server found, or the end of the scan, means the flag is set. */
  ghost predicate FlagTells(s: Scan) {
    && (forall ip :: ip in s.states && s.states[ip].stream.Some? ==> s.stop)
    && (forall t :: t in s.tasks && s.tasks[t].Storing? && s.tasks[t].status == Connected ==> s.stop)
    && (!s.running ==> s.stop)
  }

  lemma StepKeepsFlag(s: Scan, step: Step)
    requires FlagTells(s) && Next(s, step).Some?
    ensures FlagTells(Next(s, step).value)
    ensures s.stop ==> Next(s, step).value.stop
  {
    hide Holders, InFlight, AnyConnected;
  }

  // ------------------------------------------------------------- whole runs

  function Run(s: Scan, steps: seq<Step>): Option<Scan>
    decreases |steps|
  {
    if steps == [] then Some(s)
    else
      var next := Next(s, steps[0]);
      if next.None? then None else Run(next.value, steps[1..])
  }

  ghost predicate Inv(s: Scan) {
    PermitsAddUp(s) && LateWithinHolders(s) && StreamsMoved(s) && MarksAreCurrent(s) && FlagTells(s)
  }

  lemma {:induction false} RunKeepsInv(s: Scan, steps: seq<Step>)
    requires Inv(s) && Run(s, steps).Some?
    ensures Inv(Run(s, steps).value) && Run(s, steps).value.max == s.max
    decreases |steps|
  {
    hide Next, PermitsAddUp, LateWithinHolders, StreamsMoved, MarksAreCurrent, FlagTells;
    if steps != [] {
      StepKeepsPermits(s, steps[0]);
      StepKeepsLate(s, steps[0]);
      StepKeepsStreams(s, steps[0]);
      StepKeepsMarks(s, steps[0]);
      StepKeepsFlag(s, steps[0]);
      RunKeepsInv(Next(s, steps[0]).value, steps[1..]);
    }
  }

  lemma RunFromStart(max: nat, steps: seq<Step>)
    requires Run(Init(max), steps).Some?
    ensures Inv(Run(Init(max), steps).value) && Run(Init(max), steps).value.max == max
  {
    assert Holders(map[]) == {};
    RunKeepsInv(Init(max), steps);
  }

  /** In every run of overlapping rounds the dials in flight stay within the
      permits, and so do the dials in flight when the flag was set together
      with all those begun after it. */
  lemma DialsStayWithinPermits(max: nat, steps: seq<Step>)
    requires Run(Init(max), steps).Some?
    ensures var s := Run(Init(max), steps).value;
      && |InFlight(s.tasks)| <= max
      && |s.late| <= max
      && (s.stop ==> InFlight(s.tasks) <= s.late)
  {
    RunFromStart(max, steps);
    var s := Run(Init(max), steps).value;
    hide Run;
    SubsetSize(InFlight(s.tasks), Holders(s.tasks));
    if s.stop {
      SubsetSize(s.late, s.holders);
    }
  }

  lemma SubsetSize(a: set<TaskId>, b: set<TaskId>)
    requires a <= b
    ensures |a| <= |b|
  {
    assert b == a + (b - a);
  }

  /** A stream is moved, never copied: the scan hands out at most one, that one
      was dialed to the end, and the map no longer has it. */
  lemma StreamHandedOutOnce(max: nat, steps: seq<Step>)
    requires Run(Init(max), steps).Some?
    ensures var s := Run(Init(max), steps).value;
      && |s.handed| <= 1
      && (s.handed != [] ==>
            && !s.running && s.handed[0] in s.tasks && s.tasks[s.handed[0]].Done?
            && forall ip :: ip in s.states ==> s.states[ip].stream != Some(s.handed[0]))
  {
    RunFromStart(max, steps);
    hide Run;
    var s := Run(Init(max), steps).value;
    assert s.handed != [] ==> s.handed[0] in s.handed;
  }

  /** Setting the flag stops every task that has not yet looked at it twice:
      none is spawned, none goes to wait for a permit, none is cleared to dial. */
  lemma NoLateClearance(s: Scan, step: Step, t: TaskId)
    requires s.stop && Next(s, step).Some? && t in Next(s, step).value.tasks
    ensures t in s.tasks
    ensures var before, after := s.tasks[t], Next(s, step).value.tasks[t];
      && (after.Waiting? ==> before == after)
      && (after.Cleared? ==> before == after)
      && (after != before ==> after.Done? || before.Waiting? || before.Cleared? || before.Dialing? || before.Found?)
  {
  }

  /** In every run a stored or handed-out stream, and the end of the scan, mean
      that the flag is set. */
  lemma FoundMeansStopped(max: nat, steps: seq<Step>)
    requires Run(Init(max), steps).Some?
    ensures var s := Run(Init(max), steps).value;
      AnyConnected(s.states) || s.handed != [] || !s.running ==> s.stop
  {
    RunFromStart(max, steps);
    hide Run;
  }

  /** Once no task dials an address any more, a later round may try it again,
      unless a server has been found or the scan has stopped. */
  lemma RefusedAddressIsRetried(max: nat, steps: seq<Step>, ip: Ip, u: TaskId)
    requires Run(Init(max), steps).Some?
    ensures var s := Run(Init(max), steps).value;
      s.running && !s.stop && u !in s.tasks && !AnyConnected(s.states)
      && (forall t :: t in s.tasks ==> !Dials(s.tasks[t], ip))
      ==> Next(s, Spawn(u, ip)).Some?
  {
    RunFromStart(max, steps);
    hide Run;
  }
}
