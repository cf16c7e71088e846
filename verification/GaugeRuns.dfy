/** `connections_active` against the number of registered clients, with every
    operation split where another task can run: `add` between its lookup, its
    insert and its counting, `remove` between the removal and the decrement
    (src/helpers/client_sender.rs:144-181, 271-301; src/helpers/metrics.rs:75-85). */
module GaugeRuns {
  import opened Results
  import opened Counters
  import opened Registries

  type OpId = nat

  /** A call that is part-way through. */
  datatype Op =
    | Looked(peer: Peer, replacing: bool)    // `add`, before its insert
    | Inserted(peer: Peer, replacing: bool)  // `add`, before its counting
    | Removed                                // `remove`, before its decrement

  /** `overwrote`, `vanished` and `saturated` are history: inserts that saw
      "new" but overwrote, inserts that saw "replacing" but found the key gone,
      and decrements at zero. */
  datatype World = World(
    clients: map<Peer, Client>, active: nat, ops: map<OpId, Op>, overwrote: nat, vanished: nat, saturated: nat)

  datatype Step =
    | Lookup(id: OpId, peer: Peer)
    | DoInsert(id: OpId, sx: ChannelId, now: int)
    | Count(id: OpId)
    | RemoveKey(id: OpId, peer: Peer)
    | Decrement(id: OpId)
    | SweepEntry(peer: Peer, timeout: nat, now: int)
    | Refresh(peer: Peer, now: int)

  function Bit(b: bool): nat {
    if b then 1 else 0
  }

  predicate IsStale(w: World, peer: Peer, timeout: nat, now: int) {
    peer in w.clients && w.clients[peer].sendTime + timeout < now
  }

  function Next(w: World, step: Step): Option<World> {
    match step
    case Lookup(id, peer) =>
      if id in w.ops then None else Some(w.(ops := w.ops[id := Looked(peer, peer in w.clients)]))
    case DoInsert(id, sx, now) =>
      if id !in w.ops || !w.ops[id].Looked? then None
      else
        var peer, replacing := w.ops[id].peer, w.ops[id].replacing;
        var present := peer in w.clients;
        Some(w.(clients := w.clients[peer := Client(sx, now)], ops := w.ops[id := Inserted(peer, replacing)],
                overwrote := w.overwrote + Bit(!replacing && present),
                vanished := w.vanished + Bit(replacing && !present)))
    case Count(id) =>
      if id !in w.ops || !w.ops[id].Inserted? then None
      else Some(w.(active := w.active + Bit(!w.ops[id].replacing), ops := w.ops - {id}))
    case RemoveKey(id, peer) =>
      if id in w.ops then None
      else if peer !in w.clients then Some(w)
      else Some(w.(clients := w.clients - {peer}, ops := w.ops[id := Removed]))
    case Decrement(id) =>
      if id !in w.ops || !w.ops[id].Removed? then None
      else Some(w.(active := Dec(w.active), ops := w.ops - {id}, saturated := w.saturated + Bit(w.active == 0)))
    case SweepEntry(peer, timeout, now) =>
      if !IsStale(w, peer, timeout, now) then Some(w)
      else
        Some(w.(clients := w.clients - {peer}, active := Dec(w.active),
                saturated := w.saturated + Bit(w.active == 0)))
    case Refresh(peer, now) =>
      if peer !in w.clients then Some(w)
      else Some(w.(clients := w.clients[peer := w.clients[peer].(sendTime := now)]))
  }

  function Run(w: World, steps: seq<Step>): Option<World>
    decreases |steps|
  {
    if steps == [] then Some(w)
    else
      var next := Next(w, steps[0]);
      if next.None? then None else Run(next.value, steps[1..])
  }

  const EMPTY := World(map[], 0, map[], 0, 0, 0)

  predicate WillCount(op: Op) {
    op.Inserted? && !op.replacing
  }

  function Uncounted(w: World): set<OpId> {
    set id | id in w.ops && WillCount(w.ops[id])
  }

  function Undecremented(w: World): set<OpId> {
    set id | id in w.ops && w.ops[id].Removed?
  }

  ghost predicate Shows(w: World, r: Registry) {
    w.clients == r.clients && w.active == r.metrics.connectionsActive
  }

  /** With nothing in between, the three steps of `add` are the `add` of the
      registry, and the two of `remove` its `remove`. */
  lemma UninterruptedCalls(w: World, r: Registry, id: OpId, peer: Peer, sx: ChannelId, now: int)
    requires Shows(w, r) && id !in w.ops
    ensures var added := Run(w, [Lookup(id, peer), DoInsert(id, sx, now), Count(id)]);
      && added.Some? && added.value.ops == w.ops
      && Shows(added.value, Insert(r, peer, sx, now).(metrics := CountAdd(r.metrics, peer in r.clients)))
    ensures var removed := Run(w, if peer in w.clients then [RemoveKey(id, peer), Decrement(id)] else [RemoveKey(id, peer)]);
      removed.Some? && removed.value.ops == w.ops && Shows(removed.value, Remove(r, peer))
  {
    var looked := Next(w, Lookup(id, peer)).value;
    var inserted := Next(looked, DoInsert(id, sx, now)).value;
    assert Run(inserted, [Count(id)]) == Run(Next(inserted, Count(id)).value, []);
    assert Run(looked, [DoInsert(id, sx, now), Count(id)]) == Run(inserted, [Count(id)]);
    var removed := Next(w, RemoveKey(id, peer)).value;
    if peer in w.clients {
      assert Run(removed, [Decrement(id)]) == Run(Next(removed, Decrement(id)).value, []);
    } else {
      assert Run(removed, []) == Some(removed);
    }
  }

  /** A step of the sweep removes its entry exactly when the sweep of the
      registry would. */
  lemma SweepStepIsSweep(w: World, peer: Peer, timeout: nat, now: int)
    ensures var after := Next(w, SweepEntry(peer, timeout, now)).value;
      && (peer in after.clients <==> peer in Fresh(w.clients, timeout, now))
      && (peer in w.clients && peer !in after.clients ==> after.active == Dec(w.active))
      && (peer in after.clients || peer !in w.clients ==> after == w)
  {
  }

  // ----------------------------------------------------- the law of the gauge

  ghost predicate Law(w: World) {
    w.active + |Uncounted(w)| + w.vanished == |w.clients| + |Undecremented(w)| + w.overwrote + w.saturated
  }

  lemma SetSizes<T>(s: set<T>, x: T)
    ensures |s + {x}| == |s| + Bit(x !in s) && |s - {x}| == |s| - Bit(x in s)
  {
  }

  ghost predicate SameExcept(a: map<OpId, Op>, b: map<OpId, Op>, id: OpId) {
    forall i :: i != id ==> (i in a <==> i in b) && (i in a ==> a[i] == b[i])
  }

  /** What call `id` has yet to count, and yet to take off. */
  function ToCount(w: World, id: OpId): nat {
    Bit(id in w.ops && WillCount(w.ops[id]))
  }

  function ToTakeOff(w: World, id: OpId): nat {
    Bit(id in w.ops && w.ops[id].Removed?)
  }

  /** Starting, changing or ending call `id` changes the two pending counts by
      its own share. */
  lemma PendingSizes(w: World, after: World, id: OpId)
    requires SameExcept(w.ops, after.ops, id)
    ensures |Uncounted(after)| - |Uncounted(w)| == ToCount(after, id) - ToCount(w, id)
    ensures |Undecremented(after)| - |Undecremented(w)| == ToTakeOff(after, id) - ToTakeOff(w, id)
  {
    assert Uncounted(w) - {id} == Uncounted(after) - {id};
    assert Undecremented(w) - {id} == Undecremented(after) - {id};
    DifferByOne(Uncounted(w), Uncounted(after), id);
    DifferByOne(Undecremented(w), Undecremented(after), id);
  }

  lemma DifferByOne<T>(a: set<T>, b: set<T>, x: T)
    requires a - {x} == b - {x}
    ensures |b| - |a| == Bit(x in b) - Bit(x in a)
  {
    SetSizes(a, x);
    SetSizes(b, x);
  }

  lemma KeySizes(clients: map<Peer, Client>, peer: Peer, client: Client)
    ensures |clients[peer := client]| == |clients| + Bit(peer !in clients)
    ensures |clients - {peer}| == |clients| - Bit(peer in clients)
  {
    SetSizes(clients.Keys, peer);
    assert clients[peer := client].Keys == clients.Keys + {peer};
    assert (clients - {peer}).Keys == clients.Keys - {peer};
    assert |clients| == |clients.Keys| && |clients - {peer}| == |(clients - {peer}).Keys|;
    assert |clients[peer := client]| == |clients[peer := client].Keys|;
  }

  function Surplus(w: World): int {
    w.active + w.vanished - |w.clients| - w.overwrote - w.saturated
  }

  function Caller(step: Step): OpId {
    if step.SweepEntry? || step.Refresh? then 0 else step.id
  }

  /** What a step does to the gauge and the clients, its own call still owes. */
  lemma SurplusIsOwed(w: World, step: Step)
    requires Next(w, step).Some?
    ensures var after, id := Next(w, step).value, Caller(step);
      Surplus(after) - Surplus(w) == ToTakeOff(after, id) - ToTakeOff(w, id) - ToCount(after, id) + ToCount(w, id)
  {
    ClientCounts(w, step);
  }

  lemma OnlyCallerChanges(w: World, step: Step)
    requires Next(w, step).Some?
    ensures SameExcept(w.ops, Next(w, step).value.ops, Caller(step))
  {
  }

  lemma StepKeepsLaw(w: World, step: Step)
    requires Law(w) && Next(w, step).Some?
    ensures Law(Next(w, step).value)
  {
    OnlyCallerChanges(w, step);
    SurplusIsOwed(w, step);
    PendingSizes(w, Next(w, step).value, Caller(step));
    hide Next, Uncounted, Undecremented, SameExcept, WillCount;
  }

  lemma ClientCounts(w: World, step: Step)
    requires Next(w, step).Some?
    ensures var after := Next(w, step).value;
      match step
      case DoInsert(id, _, _) => |after.clients| == |w.clients| + Bit(w.ops[id].peer !in w.clients)
      case RemoveKey(_, peer) => |after.clients| == |w.clients| - Bit(peer in w.clients)
      case SweepEntry(peer, timeout, now) => |after.clients| == |w.clients| - Bit(IsStale(w, peer, timeout, now))
      case _ => |after.clients| == |w.clients|
  {
    match step
    case DoInsert(id, sx, now) => KeySizes(w.clients, w.ops[id].peer, Client(sx, now));
    case RemoveKey(_, peer) => KeySizes(w.clients, peer, Client(0, 0));
    case SweepEntry(peer, _, _) => KeySizes(w.clients, peer, Client(0, 0));
    case Refresh(peer, now) =>
      if peer in w.clients {
        KeySizes(w.clients, peer, w.clients[peer].(sendTime := now));
      }
    case _ =>
  }

  /** The conservation law, in every run of any number of overlapping calls. */
  lemma {:induction false} RunKeepsLaw(w: World, steps: seq<Step>)
    requires Law(w) && Run(w, steps).Some?
    ensures Law(Run(w, steps).value)
    decreases |steps|
  {
    hide Law, Next;
    if steps != [] {
      StepKeepsLaw(w, steps[0]);
      RunKeepsLaw(Next(w, steps[0]).value, steps[1..]);
    }
  }

  /** Once no call is part-way through, the gauge is right exactly when the
      three kinds of accident cancel out. */
  lemma GaugeIsRightExactlyWhen(steps: seq<Step>)
    requires Run(EMPTY, steps).Some? && Run(EMPTY, steps).value.ops == map[]
    ensures var w := Run(EMPTY, steps).value;
      && w.active + w.vanished == |w.clients| + w.overwrote + w.saturated
      && (w.active == |w.clients| <==> w.vanished == w.overwrote + w.saturated)
  {
    assert Uncounted(EMPTY) == {} && Undecremented(EMPTY) == {};
    RunKeepsLaw(EMPTY, steps);
    var w := Run(EMPTY, steps).value;
    assert Uncounted(w) == {} && Undecremented(w) == {};
  }

  // ------------------------------------------------------ undisturbed runs

  predicate InFlight(w: World, peer: Peer) {
    exists id :: id in w.ops && !w.ops[id].Removed? && w.ops[id].peer == peer
  }

  /** The step does not touch a peer while another call's `add` for it is in flight. */
  predicate Undisturbing(w: World, step: Step) {
    match step
    case Lookup(_, peer) => !InFlight(w, peer)
    case RemoveKey(_, peer) => !InFlight(w, peer)
    case SweepEntry(peer, _, _) => !InFlight(w, peer)
    case _ => true
  }

  predicate UndisturbedRun(w: World, steps: seq<Step>)
    decreases |steps|
  {
    steps == [] || (Undisturbing(w, steps[0]) && Next(w, steps[0]).Some?
                    && UndisturbedRun(Next(w, steps[0]).value, steps[1..]))
  }

  /** Two `add`s of one peer. */
  predicate SamePeer(a: Op, b: Op) {
    !a.Removed? && !b.Removed? && a.peer == b.peer
  }

  ghost predicate Calm(w: World) {
    && w.overwrote == w.vanished == w.saturated == 0
    && (forall i, j :: i in w.ops && j in w.ops && SamePeer(w.ops[i], w.ops[j]) ==> i == j)
    && (forall i :: i in w.ops ==> match w.ops[i]
          case Looked(peer, replacing) => replacing <==> peer in w.clients
          case Inserted(peer, _) => peer in w.clients
          case Removed => true)
  }

  /** Pairwise distinct peers, all in `peers`: no more calls than peers. */
  lemma {:induction false} DistinctPeersBound(w: World, ids: set<OpId>, peers: set<Peer>)
    requires forall i :: i in ids ==> i in w.ops && w.ops[i].Inserted? && w.ops[i].peer in peers
    requires forall i, j :: i in ids && j in ids && w.ops[i].peer == w.ops[j].peer ==> i == j
    ensures |ids| <= |peers|
    decreases |ids|
  {
    if ids != {} {
      var i :| i in ids;
      DistinctPeersBound(w, ids - {i}, peers - {w.ops[i].peer});
    }
  }

  lemma NeverSaturates(w: World, step: Step)
    requires Law(w) && Calm(w) && Undisturbing(w, step) && Next(w, step).Some?
    ensures Next(w, step).value.saturated == 0
  {
    match step
    case Decrement(id) =>
      assert id in Undecremented(w);
      DistinctPeersBound(w, Uncounted(w), w.clients.Keys);
      assert |w.clients| == |w.clients.Keys|;
    case SweepEntry(peer, _, _) =>
      if peer in w.clients {
        DistinctPeersBound(w, Uncounted(w), w.clients.Keys - {peer});
        assert |w.clients| == |w.clients.Keys|;
      }
    case _ =>
  }

  lemma StepKeepsCalm(w: World, step: Step)
    requires Law(w) && Calm(w) && Undisturbing(w, step) && Next(w, step).Some?
    ensures Calm(Next(w, step).value)
  {
    NeverSaturates(w, step);
    hide Law, Dec;
  }

  lemma {:induction false} RunKeepsCalm(w: World, steps: seq<Step>)
    requires Law(w) && Calm(w) && UndisturbedRun(w, steps)
    ensures Run(w, steps).Some? && Law(Run(w, steps).value) && Calm(Run(w, steps).value)
    decreases |steps|
  {
    hide Law, Calm, Next, Undisturbing;
    if steps != [] {
      StepKeepsLaw(w, steps[0]);
      StepKeepsCalm(w, steps[0]);
      RunKeepsCalm(Next(w, steps[0]).value, steps[1..]);
    }
  }

  /** In a run where no operation on a peer falls inside an `add` of that peer,
      no accident happens: the gauge is the number of clients, give or take the
      calls that have not yet reached their counter. */
  lemma UndisturbedGaugeIsExact(steps: seq<Step>)
    requires UndisturbedRun(EMPTY, steps)
    ensures Run(EMPTY, steps).Some?
    ensures var w := Run(EMPTY, steps).value;
      && w.active + |Uncounted(w)| == |w.clients| + |Undecremented(w)|
      && (w.ops == map[] ==> w.active == |w.clients|)
  {
    assert Uncounted(EMPTY) == {} && Undecremented(EMPTY) == {};
    RunKeepsCalm(EMPTY, steps);
    var w := Run(EMPTY, steps).value;
    if w.ops == map[] {
      assert Uncounted(w) == {} && Undecremented(w) == {};
    }
  }

  // ----------------------------------------- left alone up to the insert only

  predicate InWindow(w: World, peer: Peer) {
    exists id :: id in w.ops && w.ops[id].Looked? && w.ops[id].peer == peer
  }

  /** The step does not touch a peer between an `add`'s lookup and insert. */
  predicate SparesWindows(w: World, step: Step) {
    match step
    case Lookup(_, peer) => !InWindow(w, peer)
    case RemoveKey(_, peer) => !InWindow(w, peer)
    case SweepEntry(peer, _, _) => !InWindow(w, peer)
    case _ => true
  }

  predicate SparingRun(w: World, steps: seq<Step>)
    decreases |steps|
  {
    steps == [] || (SparesWindows(w, steps[0]) && Next(w, steps[0]).Some? && SparingRun(Next(w, steps[0]).value, steps[1..]))
  }

  ghost predicate WindowsCalm(w: World) {
    && w.overwrote == w.vanished == 0
    && (forall i, j :: i in w.ops && j in w.ops && BothLooked(w.ops[i], w.ops[j]) ==> i == j)
    && (forall i :: i in w.ops && w.ops[i].Looked? ==> (w.ops[i].replacing <==> w.ops[i].peer in w.clients))
  }

  predicate BothLooked(a: Op, b: Op) {
    a.Looked? && b.Looked? && a.peer == b.peer
  }

  lemma StepKeepsWindowsCalm(w: World, step: Step)
    requires WindowsCalm(w) && SparesWindows(w, step) && Next(w, step).Some?
    ensures WindowsCalm(Next(w, step).value)
  {
    hide Dec;
  }

  lemma {:induction false} RunKeepsWindowsCalm(w: World, steps: seq<Step>)
    requires Law(w) && WindowsCalm(w) && SparingRun(w, steps)
    ensures Run(w, steps).Some? && Law(Run(w, steps).value) && WindowsCalm(Run(w, steps).value)
    decreases |steps|
  {
    hide Law, WindowsCalm, Next, SparesWindows;
    if steps != [] {
      StepKeepsLaw(w, steps[0]);
      StepKeepsWindowsCalm(w, steps[0]);
      RunKeepsWindowsCalm(Next(w, steps[0]).value, steps[1..]);
    }
  }

  /** If operations only keep out of the windows from lookup to insert, no
      insert is mistaken about its peer: at rest the gauge exceeds the number of
      clients by the decrements that met a zero, and by nothing else. */
  lemma SparingRunOnlySaturates(steps: seq<Step>)
    requires SparingRun(EMPTY, steps)
    ensures Run(EMPTY, steps).Some?
    ensures var w := Run(EMPTY, steps).value;
      && w.overwrote == w.vanished == 0
      && (w.ops == map[] ==> w.active == |w.clients| + w.saturated)
  {
    assert Uncounted(EMPTY) == {} && Undecremented(EMPTY) == {};
    RunKeepsWindowsCalm(EMPTY, steps);
    var w := Run(EMPTY, steps).value;
    if w.ops == map[] {
      assert Uncounted(w) == {} && Undecremented(w) == {};
    }
  }

  /** Two tablets with one id, both seen as new: one client, counted twice. */
  lemma OverlappingAddsMiscount()
    ensures var steps := [Lookup(0, "a"), Lookup(1, "a"), DoInsert(0, 10, 0), DoInsert(1, 11, 0), Count(0), Count(1)];
      Run(EMPTY, steps).Some? && Run(EMPTY, steps).value.active == 2 && |Run(EMPTY, steps).value.clients| == 1
  {
    var w1 := Next(EMPTY, Lookup(0, "a")).value;
    var w2 := Next(w1, Lookup(1, "a")).value;
    var w3 := Next(w2, DoInsert(0, 10, 0)).value;
    var w4 := Next(w3, DoInsert(1, 11, 0)).value;
    var w5 := Next(w4, Count(0)).value;
    var w6 := Next(w5, Count(1)).value;
    assert w6.clients == map["a" := Client(11, 0)];
    assert Run(w6, []) == Some(w6);
    assert Run(w5, [Count(1)]) == Some(w6);
    assert Run(w4, [Count(0), Count(1)]) == Some(w6);
    assert Run(w3, [DoInsert(1, 11, 0), Count(0), Count(1)]) == Some(w6);
    assert Run(w2, [DoInsert(0, 10, 0), DoInsert(1, 11, 0), Count(0), Count(1)]) == Some(w6);
    assert Run(w1, [Lookup(1, "a"), DoInsert(0, 10, 0), DoInsert(1, 11, 0), Count(0), Count(1)]) == Some(w6);
  }

  /** That excess is real, so a peer must be left alone until the count: a
      removal between insert and count meets a gauge of zero. */
  lemma RemovalBeforeCountMiscounts()
    ensures var steps := [Lookup(0, "a"), DoInsert(0, 10, 0), RemoveKey(1, "a"), Decrement(1), Count(0)];
      Run(EMPTY, steps).Some? && Run(EMPTY, steps).value.active == 1 && Run(EMPTY, steps).value.clients == map[]
  {
    var w1 := Next(EMPTY, Lookup(0, "a")).value;
    var w2 := Next(w1, DoInsert(0, 10, 0)).value;
    var w3 := Next(w2, RemoveKey(1, "a")).value;
    var w4 := Next(w3, Decrement(1)).value;
    var w5 := Next(w4, Count(0)).value;
    assert w5.clients == map[];
    assert Run(w5, []) == Some(w5);
    assert Run(w4, [Count(0)]) == Some(w5);
    assert Run(w3, [Decrement(1), Count(0)]) == Some(w5);
    assert Run(w2, [RemoveKey(1, "a"), Decrement(1), Count(0)]) == Some(w5);
    assert Run(w1, [DoInsert(0, 10, 0), RemoveKey(1, "a"), Decrement(1), Count(0)]) == Some(w5);
  }
}
