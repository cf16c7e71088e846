/** A broadcast with each of its sends split where other tasks can run: the
    lookup of the peer's channel, the end of the `send` into it, and the refresh
    or removal that follows (src/helpers/client_sender.rs:356-375, 516-523,
    549-567). */
module BroadcastRuns {
  import opened Results
  import opened Counters
  import opened Registries
  import opened Broadcasts
  import Wire

  /** One send of the join. */
  datatype Phase =
    | Due                       // before its lookup
    | Sending(sx: ChannelId)    // found, its message not yet taken or refused
    | Refreshing(at: int)       // taken, before `write_time`
    | Removing                  // refused, or not found, before `remove`
    | Done

  /** What other tasks do to the registry meanwhile. */
  datatype Operation =
    | Register(peer: Peer, sx: ChannelId, now: int)
    | Unregister(peer: Peer)
    | Touch(peer: Peer, now: int)
    | OtherSend(sx: ChannelId, frame: Wire.Frame, took: bool)

  /** `found` and `others` are history: the peers of the snapshot that were
      registered at their lookup, and the sends other tasks had counted. */
  datatype World = World(registry: Registry, phases: map<Peer, Phase>, found: set<Peer>, others: nat)

  datatype Step = Look(peer: Peer) | Finish(peer: Peer) | Settle(peer: Peer) | Other(op: Operation)

  function Start(r: Registry, peers: set<Peer>): World {
    World(r, map p | p in peers :: Due, {}, 0)
  }

  function CountSend(m: MetricsSnapshot, took: bool): MetricsSnapshot {
    if took then m.(messagesSent := m.messagesSent + 1) else m.(sendErrors := m.sendErrors + 1)
  }

  function Append(r: Registry, sx: ChannelId, frame: Wire.Frame): Registry {
    r.(queues := r.queues[sx := (if sx in r.queues then r.queues[sx] else []) + [frame]])
  }

  function Operate(r: Registry, op: Operation): Registry {
    match op
    case Register(peer, sx, now) =>
      Insert(r, peer, sx, now).(metrics := CountAdd(r.metrics, peer in r.clients))
    case Unregister(peer) => Remove(r, peer)
    case Touch(peer, now) => WriteTime(r, peer, now)
    case OtherSend(sx, frame, took) =>
      (if took then Append(r, sx, frame) else r).(metrics := CountSend(r.metrics, took))
  }

  function PhaseOf(w: World, peer: Peer): Phase {
    if peer in w.phases then w.phases[peer] else Done
  }

  function WithPhase(w: World, peer: Peer, phase: Phase): World {
    w.(phases := w.phases[peer := phase])
  }

  function Next(w: World, frame: Wire.Frame, outcomes: Outcomes, step: Step): Option<World> {
    var r := w.registry;
    match step
    case Look(peer) =>
      if !PhaseOf(w, peer).Due? then None
      else if peer !in r.clients then Some(WithPhase(w, peer, Removing))
      else Some(WithPhase(w, peer, Sending(r.clients[peer].sx)).(found := w.found + {peer}))
    case Finish(peer) =>
      var phase := PhaseOf(w, peer);
      if !phase.Sending? || peer !in outcomes then None
      else
        var took := outcomes[peer].Accepted?;
        Some(WithPhase(w, peer, if took then Refreshing(outcomes[peer].at) else Removing)
             .(registry := (if took then Append(r, phase.sx, frame) else r).(metrics := CountSend(r.metrics, took))))
    case Settle(peer) =>
      var phase := PhaseOf(w, peer);
      if phase.Refreshing? then Some(WithPhase(w, peer, Done).(registry := WriteTime(r, peer, phase.at)))
      else if phase.Removing? then Some(WithPhase(w, peer, Done).(registry := Remove(r, peer)))
      else None
    case Other(op) =>
      Some(w.(registry := Operate(r, op), others := w.others + if op.OtherSend? then 1 else 0))
  }

  function Run(w: World, frame: Wire.Frame, outcomes: Outcomes, steps: seq<Step>): Option<World>
    decreases |steps|
  {
    if steps == [] then Some(w)
    else
      var next := Next(w, frame, outcomes, steps[0]);
      if next.None? then None else Run(next.value, frame, outcomes, steps[1..])
  }

  predicate AllDone(w: World) {
    forall p :: p in w.phases ==> w.phases[p].Done?
  }

  // ------------------------------------------------- counting under interference

  function Counted(w: World): set<Peer> {
    set p | p in w.found && !PhaseOf(w, p).Sending?
  }

  function Count(m: MetricsSnapshot): nat {
    m.messagesSent + m.sendErrors
  }

  /** A peer is among the found exactly from its lookup on, if it was found. */
  ghost predicate FoundFits(w: World) {
    && w.found <= w.phases.Keys
    && (forall p :: p in w.phases ==> (w.phases[p].Due? ==> p !in w.found) && (w.phases[p].Sending? ==> p in w.found))
  }

  ghost predicate CountLaw(w: World, base: nat) {
    FoundFits(w) && Count(w.registry.metrics) == base + |Counted(w)| + w.others
  }

  lemma CountersMove(w: World, frame: Wire.Frame, outcomes: Outcomes, step: Step)
    requires Next(w, frame, outcomes, step).Some?
    ensures var after := Next(w, frame, outcomes, step).value;
      Count(after.registry.metrics) - Count(w.registry.metrics) == after.others - w.others + if step.Finish? then 1 else 0
  {
    hide Dec, PhaseOf;
  }

  /** A step moves its own peer's phase on, and only a lookup finds. */
  lemma PhasesMove(w: World, frame: Wire.Frame, outcomes: Outcomes, step: Step)
    requires Next(w, frame, outcomes, step).Some?
    ensures var after := Next(w, frame, outcomes, step).value;
      if step.Other? then after.phases == w.phases && after.found == w.found
      else
        var now := PhaseOf(after, step.peer);
        && step.peer in w.phases && after.phases == w.phases[step.peer := now] && !now.Due?
        && (now.Sending? ==> step.Look?)
        && after.found == (if now.Sending? then w.found + {step.peer} else w.found)
        && (if step.Look? then w.phases[step.peer].Due?
            else !w.phases[step.peer].Due? && (w.phases[step.peer].Sending? <==> step.Finish?))
  {
    hide Operate, Append, CountSend, WriteTime, Remove;
  }

  lemma CountedMoves(w: World, frame: Wire.Frame, outcomes: Outcomes, step: Step)
    requires FoundFits(w) && Next(w, frame, outcomes, step).Some?
    ensures FoundFits(Next(w, frame, outcomes, step).value)
    ensures |Counted(Next(w, frame, outcomes, step).value)| == |Counted(w)| + if step.Finish? then 1 else 0
  {
    PhasesMove(w, frame, outcomes, step);
    hide Next;
    var after := Next(w, frame, outcomes, step).value;
    if step.Finish? {
      assert Counted(after) == Counted(w) + {step.peer} && step.peer !in Counted(w);
    } else {
      assert Counted(after) == Counted(w);
    }
  }

  /** Only the end of a `send` counts, and only once for a peer. */
  lemma StepKeepsCount(w: World, frame: Wire.Frame, outcomes: Outcomes, step: Step, base: nat)
    requires CountLaw(w, base) && Next(w, frame, outcomes, step).Some?
    ensures CountLaw(Next(w, frame, outcomes, step).value, base)
  {
    CountersMove(w, frame, outcomes, step);
    CountedMoves(w, frame, outcomes, step);
    hide Next, Count, Counted, FoundFits;
  }

  lemma {:induction false} RunKeepsCount(w: World, frame: Wire.Frame, outcomes: Outcomes, steps: seq<Step>, base: nat)
    requires CountLaw(w, base) && Run(w, frame, outcomes, steps).Some?
    ensures CountLaw(Run(w, frame, outcomes, steps).value, base)
    decreases |steps|
  {
    hide CountLaw, Next;
    if steps != [] {
      StepKeepsCount(w, frame, outcomes, steps[0], base);
      RunKeepsCount(Next(w, frame, outcomes, steps[0]).value, frame, outcomes, steps[1..], base);
    }
  }

  /** Whatever other tasks do to the registry in between: once all sends are
      done, each peer that was registered at its own lookup has been counted
      once, and no other peer of the snapshot has been. */
  lemma EachFoundPeerIsCounted(r: Registry, peers: set<Peer>, frame: Wire.Frame, outcomes: Outcomes, steps: seq<Step>)
    requires Run(Start(r, peers), frame, outcomes, steps).Some?
    requires AllDone(Run(Start(r, peers), frame, outcomes, steps).value)
    ensures var w := Run(Start(r, peers), frame, outcomes, steps).value;
      w.found <= peers && Count(w.registry.metrics) == Count(r.metrics) + |w.found| + w.others
  {
    assert Counted(Start(r, peers)) == {};
    RunKeepsCount(Start(r, peers), frame, outcomes, steps, Count(r.metrics));
    PhasesAreFixed(Start(r, peers), frame, outcomes, steps);
    var w := Run(Start(r, peers), frame, outcomes, steps).value;
    hide Run;
    assert Counted(w) == w.found;
  }

  lemma {:induction false} PhasesAreFixed(w: World, frame: Wire.Frame, outcomes: Outcomes, steps: seq<Step>)
    requires Run(w, frame, outcomes, steps).Some?
    ensures Run(w, frame, outcomes, steps).value.phases.Keys == w.phases.Keys
    decreases |steps|
  {
    if steps != [] {
      var after := Next(w, frame, outcomes, steps[0]).value;
      assert after.phases.Keys == w.phases.Keys;
      hide Next;
      PhasesAreFixed(after, frame, outcomes, steps[1..]);
    }
  }

  /** A broadcast's own step concerns the entry of its own peer alone. */
  lemma OtherEntriesUntouched(w: World, frame: Wire.Frame, outcomes: Outcomes, step: Step, p: Peer)
    requires !step.Other? && p != step.peer && Next(w, frame, outcomes, step).Some?
    ensures var before, after := w.registry.clients, Next(w, frame, outcomes, step).value.registry.clients;
      (p in after <==> p in before) && (p in after ==> after[p] == before[p])
  {
  }

  /** A send that fails, or finds nobody, removes by peer id: whoever is
      registered under it by then goes, a newcomer included. */
  lemma FailedSendRemovesWhoeverIsThere(w: World, frame: Wire.Frame, outcomes: Outcomes, peer: Peer, op: Operation)
    requires (PhaseOf(w, peer).Due? && peer !in w.registry.clients)
             || (PhaseOf(w, peer).Sending? && peer in outcomes && outcomes[peer].Failed?)
    ensures var first := if PhaseOf(w, peer).Due? then Look(peer) else Finish(peer);
      var end := Run(w, frame, outcomes, [first, Other(op), Settle(peer)]);
      end.Some? && peer !in end.value.registry.clients
      && forall p :: p != peer ==>
           (p in end.value.registry.clients <==> p in Operate(Next(w, frame, outcomes, first).value.registry, op).clients)
  {
    hide Operate, CountSend, Append;
    var first := if PhaseOf(w, peer).Due? then Look(peer) else Finish(peer);
    var w1 := Next(w, frame, outcomes, first).value;
    assert PhaseOf(w1, peer) == Removing;
    var w2 := Next(w1, frame, outcomes, Other(op)).value;
    var w3 := Next(w2, frame, outcomes, Settle(peer)).value;
    assert w3.registry == Remove(w2.registry, peer);
    assert Run(w3, frame, outcomes, []) == Some(w3);
    assert [first, Other(op), Settle(peer)][1..] == [Other(op), Settle(peer)];
    assert [Other(op), Settle(peer)][1..] == [Settle(peer)] && [Settle(peer)][1..] == [];
    assert Run(w2, frame, outcomes, [Settle(peer)]) == Some(w3);
    assert Run(w1, frame, outcomes, [Other(op), Settle(peer)]) == Some(w3);
  }

  // ------------------------------------------------------- with no interference

  /** The found peers whose message has been taken or refused. */
  function Ended(r: Registry, w: World): set<Peer> {
    set p | p in w.phases && p in r.clients && !w.phases[p].Due? && !w.phases[p].Sending?
  }

  /** Those whose refresh or removal is done as well. */
  function Settled(r: Registry, w: World): set<Peer> {
    set p | p in w.phases && p in r.clients && w.phases[p].Done?
  }

  ghost predicate PhasesFit(r: Registry, w: World, outcomes: Outcomes)
    requires w.phases.Keys <= outcomes.Keys
  {
    forall p :: p in w.phases ==> match w.phases[p]
      case Sending(sx) => p in r.clients && sx == r.clients[p].sx
      case Refreshing(at) => p in r.clients && outcomes[p] == Accepted(at)
      case Removing => p in r.clients ==> outcomes[p].Failed?
      case _ => true
  }

  predicate MetricsSplit(r: Registry, ended: set<Peer>, settled: set<Peer>, outcomes: Outcomes, m: MetricsSnapshot) {
    m == r.metrics.(
      messagesSent := r.metrics.messagesSent + |AcceptedOf(ended, outcomes)|,
      sendErrors := r.metrics.sendErrors + |FailedOf(ended, outcomes)|,
      connectionsActive := DecBy(r.metrics.connectionsActive, |FailedOf(settled, outcomes)|))
  }

  /** Part-way: clients are as far as settled, queues and counts as far as ended. */
  ghost predicate PartlyDelivered(r: Registry, w: World, frame: Wire.Frame, outcomes: Outcomes) {
    && w.phases.Keys <= outcomes.Keys && PhasesFit(r, w, outcomes)
    && ClientsAfter(r, Settled(r, w), outcomes, w.registry)
    && QueuesAfter(r, Ended(r, w), frame, outcomes, w.registry)
    && MetricsSplit(r, Ended(r, w), Settled(r, w), outcomes, w.registry.metrics)
  }

  lemma LookKeepsDelivery(r: Registry, w: World, frame: Wire.Frame, outcomes: Outcomes, peer: Peer)
    requires PartlyDelivered(r, w, frame, outcomes) && Next(w, frame, outcomes, Look(peer)).Some?
    ensures PartlyDelivered(r, Next(w, frame, outcomes, Look(peer)).value, frame, outcomes)
  {
    var after := Next(w, frame, outcomes, Look(peer)).value;
    assert peer !in Settled(r, w) && (peer in r.clients <==> peer in w.registry.clients);
    assert Settled(r, after) == Settled(r, w);
    assert Ended(r, after) == Ended(r, w);
    hide Settled, Ended, QueuesAfter, MetricsSplit;
  }

  lemma FinishSets(r: Registry, w: World, frame: Wire.Frame, outcomes: Outcomes, peer: Peer)
    requires w.phases.Keys <= outcomes.Keys && PhasesFit(r, w, outcomes)
    requires Next(w, frame, outcomes, Finish(peer)).Some?
    ensures var after := Next(w, frame, outcomes, Finish(peer)).value;
      && PhasesFit(r, after, outcomes) && peer in r.clients && PhaseOf(w, peer) == Sending(r.clients[peer].sx)
      && Settled(r, after) == Settled(r, w) && peer !in Settled(r, w)
      && Ended(r, after) == Ended(r, w) + {peer} && peer !in Ended(r, w)
  {
    hide Append, CountSend;
    var after := Next(w, frame, outcomes, Finish(peer)).value;
    assert Settled(r, after) == Settled(r, w);
    assert Ended(r, after) == Ended(r, w) + {peer};
  }

  lemma FinishMetrics(
    r: Registry, ended: set<Peer>, settled: set<Peer>, outcomes: Outcomes, m: MetricsSnapshot, peer: Peer)
    requires MetricsSplit(r, ended, settled, outcomes, m) && peer in outcomes && peer !in ended
    ensures MetricsSplit(r, ended + {peer}, settled, outcomes, CountSend(m, outcomes[peer].Accepted?))
  {
    OneMore(ended, peer, outcomes);
    assert peer !in AcceptedOf(ended, outcomes) && peer !in FailedOf(ended, outcomes);
    hide AcceptedOf, FailedOf, DecBy;
  }

  lemma FinishRegistry(w: World, frame: Wire.Frame, outcomes: Outcomes, peer: Peer)
    requires peer in w.registry.clients && PhaseOf(w, peer) == Sending(w.registry.clients[peer].sx) && peer in outcomes
    ensures Next(w, frame, outcomes, Finish(peer)).Some?
    ensures var after := Next(w, frame, outcomes, Finish(peer)).value.registry;
      && after.clients == w.registry.clients
      && after.queues == CompleteSend(w.registry, peer, frame, outcomes[peer]).queues
      && after.metrics == CountSend(w.registry.metrics, outcomes[peer].Accepted?)
  {
    hide Dec;
  }

  lemma FinishKeepsDelivery(r: Registry, w: World, frame: Wire.Frame, outcomes: Outcomes, peer: Peer)
    requires DistinctChannels(r)
    requires PartlyDelivered(r, w, frame, outcomes) && Next(w, frame, outcomes, Finish(peer)).Some?
    ensures PartlyDelivered(r, Next(w, frame, outcomes, Finish(peer)).value, frame, outcomes)
  {
    var after, ended, settled := Next(w, frame, outcomes, Finish(peer)).value, Ended(r, w), Settled(r, w);
    FinishSets(r, w, frame, outcomes, peer);
    PhasesAreFixed(w, frame, outcomes, [Finish(peer)]);
    hide Next, PhasesFit, Settled, Ended, DistinctChannels, CompleteSend, MetricsSplit, QueuesAfter, PhaseOf, CountSend;
    SameEntry(r, settled, outcomes, w.registry, peer);
    FinishRegistry(w, frame, outcomes, peer);
    QueuesOneMore(r, ended, peer, frame, outcomes, w.registry);
    SameQueues(r, ended + {peer}, frame, outcomes, CompleteSend(w.registry, peer, frame, outcomes[peer]), after.registry);
    SameClients(r, settled, outcomes, w.registry, after.registry);
    FinishMetrics(r, ended, settled, outcomes, w.registry.metrics, peer);
    hide ClientsAfter;
  }

  lemma SameEntry(r: Registry, found: set<Peer>, outcomes: Outcomes, after: Registry, p: Peer)
    requires found <= outcomes.Keys && found <= r.clients.Keys && ClientsAfter(r, found, outcomes, after) && p !in found
    ensures p in after.clients <==> p in r.clients
    ensures p in r.clients ==> after.clients[p] == r.clients[p]
  {
  }

  lemma SameQueues(r: Registry, found: set<Peer>, frame: Wire.Frame, outcomes: Outcomes, a: Registry, b: Registry)
    requires found <= outcomes.Keys && found <= r.clients.Keys && a.queues == b.queues
    requires QueuesAfter(r, found, frame, outcomes, a)
    ensures QueuesAfter(r, found, frame, outcomes, b)
  {
  }

  lemma SameClients(r: Registry, found: set<Peer>, outcomes: Outcomes, a: Registry, b: Registry)
    requires found <= outcomes.Keys && found <= r.clients.Keys && a.clients == b.clients
    requires ClientsAfter(r, found, outcomes, a)
    ensures ClientsAfter(r, found, outcomes, b)
  {
  }

  lemma SettleSets(r: Registry, w: World, frame: Wire.Frame, outcomes: Outcomes, peer: Peer)
    requires w.phases.Keys <= outcomes.Keys && PhasesFit(r, w, outcomes)
    requires Next(w, frame, outcomes, Settle(peer)).Some?
    ensures var after := Next(w, frame, outcomes, Settle(peer)).value;
      && PhasesFit(r, after, outcomes) && Ended(r, after) == Ended(r, w) && peer !in Settled(r, w)
      && Settled(r, after) == if peer in r.clients then Settled(r, w) + {peer} else Settled(r, w)
    ensures peer in r.clients ==>
      PhaseOf(w, peer) == if outcomes[peer].Accepted? then Refreshing(outcomes[peer].at) else Removing
  {
    hide WriteTime, Remove;
    var after := Next(w, frame, outcomes, Settle(peer)).value;
    assert Ended(r, after) == Ended(r, w);
    assert Settled(r, after) == if peer in r.clients then Settled(r, w) + {peer} else Settled(r, w);
  }

  lemma SettleMetrics(
    r: Registry, ended: set<Peer>, settled: set<Peer>, outcomes: Outcomes, m: MetricsSnapshot, peer: Peer)
    requires MetricsSplit(r, ended, settled, outcomes, m) && peer in outcomes && peer !in settled
    ensures MetricsSplit(r, ended, settled + {peer}, outcomes,
              if outcomes[peer].Failed? then m.(connectionsActive := Dec(m.connectionsActive)) else m)
  {
    OneMore(settled, peer, outcomes);
    assert peer !in FailedOf(settled, outcomes);
    DecOnce(r.metrics.connectionsActive, |FailedOf(settled, outcomes)|);
    hide AcceptedOf, FailedOf, DecBy, Dec;
  }

  lemma SettleRegistry(w: World, frame: Wire.Frame, outcomes: Outcomes, peer: Peer)
    requires peer in w.registry.clients && peer in outcomes
    requires PhaseOf(w, peer) == if outcomes[peer].Accepted? then Refreshing(outcomes[peer].at) else Removing
    ensures Next(w, frame, outcomes, Settle(peer)).Some?
    ensures var m, after := w.registry.metrics, Next(w, frame, outcomes, Settle(peer)).value.registry;
      && after.queues == w.registry.queues
      && after.clients == CompleteSend(w.registry, peer, frame, outcomes[peer]).clients
      && after.metrics == if outcomes[peer].Failed? then m.(connectionsActive := Dec(m.connectionsActive)) else m
  {
  }

  lemma SettleNobody(w: World, frame: Wire.Frame, outcomes: Outcomes, peer: Peer)
    requires peer !in w.registry.clients && Next(w, frame, outcomes, Settle(peer)).Some?
    ensures Next(w, frame, outcomes, Settle(peer)).value.registry == w.registry
  {
  }

  lemma SettleKeepsDelivery(r: Registry, w: World, frame: Wire.Frame, outcomes: Outcomes, peer: Peer)
    requires PartlyDelivered(r, w, frame, outcomes) && Next(w, frame, outcomes, Settle(peer)).Some?
    ensures PartlyDelivered(r, Next(w, frame, outcomes, Settle(peer)).value, frame, outcomes)
  {
    var after, ended, settled := Next(w, frame, outcomes, Settle(peer)).value, Ended(r, w), Settled(r, w);
    SettleSets(r, w, frame, outcomes, peer);
    PhasesAreFixed(w, frame, outcomes, [Settle(peer)]);
    assert peer in w.phases && PhaseOf(w, peer) == w.phases[peer];
    hide Next, PhasesFit, Settled, Ended, CompleteSend, MetricsSplit, QueuesAfter, PhaseOf;
    SameEntry(r, settled, outcomes, w.registry, peer);
    if peer in r.clients {
      SettleRegistry(w, frame, outcomes, peer);
      var whole := CompleteSend(w.registry, peer, frame, outcomes[peer]);
      ClientsOneMore(r, settled, peer, frame, outcomes, w.registry);
      SameClients(r, settled + {peer}, outcomes, whole, after.registry);
      SettleMetrics(r, ended, settled, outcomes, w.registry.metrics, peer);
      SameQueues(r, ended, frame, outcomes, w.registry, after.registry);
    } else {
      SettleNobody(w, frame, outcomes, peer);
    }
    hide ClientsAfter;
  }

  predicate Alone(steps: seq<Step>) {
    forall i :: 0 <= i < |steps| ==> !steps[i].Other?
  }

  lemma {:induction false} RunKeepsDelivery(
    r: Registry, w: World, frame: Wire.Frame, outcomes: Outcomes, steps: seq<Step>)
    requires DistinctChannels(r) && Alone(steps)
    requires PartlyDelivered(r, w, frame, outcomes) && Run(w, frame, outcomes, steps).Some?
    ensures PartlyDelivered(r, Run(w, frame, outcomes, steps).value, frame, outcomes)
    decreases |steps|
  {
    hide Next, PartlyDelivered, DistinctChannels;
    if steps != [] {
      assert !steps[0].Other?;
      match steps[0] {
        case Look(peer) => LookKeepsDelivery(r, w, frame, outcomes, peer);
        case Finish(peer) => FinishKeepsDelivery(r, w, frame, outcomes, peer);
        case Settle(peer) => SettleKeepsDelivery(r, w, frame, outcomes, peer);
        case Other(_) => assert false;
      }
      RunKeepsDelivery(r, Next(w, frame, outcomes, steps[0]).value, frame, outcomes, steps[1..]);
    }
  }

  /** However the lookups, ends and settlements of its sends interleave, a
      broadcast comes to what it would with whole sends one after another. */
  lemma InterleavedBroadcast(
    r: Registry, order: seq<Peer>, frame: Wire.Frame, outcomes: Outcomes, steps: seq<Step>)
    requires DistinctChannels(r) && NoDuplicates(order) && ToSet(order) <= outcomes.Keys && Alone(steps)
    requires Run(Start(r, ToSet(order)), frame, outcomes, steps).Some?
    requires AllDone(Run(Start(r, ToSet(order)), frame, outcomes, steps).value)
    ensures Run(Start(r, ToSet(order)), frame, outcomes, steps).value.registry == Complete(r, order, frame, outcomes)
  {
    var peers, start := ToSet(order), Start(r, ToSet(order));
    StartIsPartlyDelivered(r, peers, frame, outcomes);
    RunKeepsDelivery(r, start, frame, outcomes, steps);
    PhasesAreFixed(start, frame, outcomes, steps);
    CompleteDelivers(r, order, frame, outcomes);
    assert start.phases.Keys == peers;
    hide Run, Start, Complete, ToSet, DistinctChannels, PartlyDelivered, Delivered, AllDone;
    var w := Run(start, frame, outcomes, steps).value;
    DoneIsDelivered(r, w, frame, outcomes);
    DeliveredUnique(r, peers, frame, outcomes, w.registry, Complete(r, order, frame, outcomes));
  }

  lemma DoneIsDelivered(r: Registry, w: World, frame: Wire.Frame, outcomes: Outcomes)
    requires PartlyDelivered(r, w, frame, outcomes) && AllDone(w)
    ensures Delivered(r, w.phases.Keys, frame, outcomes, w.registry)
  {
    hide ClientsAfter, QueuesAfter;
    assert Settled(r, w) == Found(r, w.phases.Keys) && Ended(r, w) == Found(r, w.phases.Keys);
  }

  lemma StartIsPartlyDelivered(r: Registry, peers: set<Peer>, frame: Wire.Frame, outcomes: Outcomes)
    requires peers <= outcomes.Keys
    ensures PartlyDelivered(r, Start(r, peers), frame, outcomes)
  {
    var w := Start(r, peers);
    assert Settled(r, w) == {} && Ended(r, w) == {};
    assert AcceptedOf({}, outcomes) == {} && FailedOf({}, outcomes) == {};
  }
}
