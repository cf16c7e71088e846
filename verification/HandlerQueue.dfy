/** The non-blocking queue in front of the application: a bounded channel and a
    bounded spillover deque behind it, on the server
    (src/helpers/client_sender.rs:222-261) and on the client
    (src/helpers/server_sender.rs:286-342). */
module HandlerQueues {

  /** `channel`, `open`, `spillover`, `received` and `dropped` are the source's
      state. The rest is history: `delivered` and `accepted` in order, `lost`
      messages that met a closed channel, and `statusDrops`, the part of
      `dropped` that the client's status channel adds to the same counter. */
  datatype Queue<T> = Queue(
    capacity: nat, spillCap: nat,
    channel: seq<T>, open: bool, spillover: seq<T>, received: nat, dropped: nat,
    delivered: seq<T>, accepted: seq<T>, lost: nat, statusDrops: nat)

  /** What the receiving side does between two `try_send`s of one call. */
  datatype Gap = Gap(taken: nat, closes: bool)

  function Take<T>(q: Queue<T>, n: nat): Queue<T> {
    var k := if n <= |q.channel| then n else |q.channel|;
    q.(channel := q.channel[k..], delivered := q.delivered + q.channel[..k])
  }

  function Pause<T>(q: Queue<T>, gaps: seq<Gap>): Queue<T> {
    if gaps == [] then q else Take(q, gaps[0].taken).(open := q.open && !gaps[0].closes)
  }

  function Rest(gaps: seq<Gap>): seq<Gap> {
    if gaps == [] then [] else gaps[1..]
  }

  predicate HasRoom<T>(q: Queue<T>) {
    q.open && |q.channel| < q.capacity
  }

  /** Step 1 of a call: move spilled messages into the channel while it takes them. */
  function Drain<T>(q: Queue<T>, gaps: seq<Gap>): (Queue<T>, seq<Gap>)
    decreases |q.spillover|
  {
    if q.spillover == [] then (q, gaps)
    else
      var now := Pause(q, gaps);
      if HasRoom(now)
      then Drain(now.(channel := now.channel + [now.spillover[0]], spillover := now.spillover[1..]), Rest(gaps))
      else (now, Rest(gaps))
  }

  function Spill<T>(q: Queue<T>, x: T): Queue<T> {
    if |q.spillover| < q.spillCap then q.(spillover := q.spillover + [x], accepted := q.accepted + [x])
    else q.(dropped := q.dropped + 1)
  }

  /** One whole call, with the consumer active in its gaps. */
  function Offer<T>(q: Queue<T>, x: T, gaps: seq<Gap>): Queue<T> {
    var (drained, rest) := Drain(q.(received := q.received + 1), gaps);
    if drained.spillover != [] then Spill(drained, x)
    else
      var now := Pause(drained, rest);
      if HasRoom(now) then now.(channel := now.channel + [x], accepted := now.accepted + [x])
      else if now.open then Spill(now, x)
      else now.(lost := now.lost + 1)
  }

  // --------------------------------------------------------------- the code

  datatype SendResult = Sent | Full | Closed

  class HandlerQueue<T> {
    const capacity: nat
    const spillCap: nat
    var channel: seq<T>
    var open: bool
    var spillover: seq<T>
    var received: nat
    var dropped: nat
    ghost var delivered: seq<T>
    ghost var accepted: seq<T>
    ghost var lost: nat
    ghost var statusDrops: nat

    ghost function State(): Queue<T>
      reads this
    {
      Queue(capacity, spillCap, channel, open, spillover, received, dropped, delivered, accepted, lost, statusDrops)
    }

    constructor (capacity: nat, spillCap: nat)
      ensures State() == Queue(capacity, spillCap, [], true, [], 0, 0, [], [], 0, 0)
    {
      this.capacity, this.spillCap, this.channel, this.open, this.spillover := capacity, spillCap, [], true, [];
      this.received, this.dropped := 0, 0;
      this.delivered, this.accepted, this.lost, this.statusDrops := [], [], 0, 0;
    }

    /** The receiver runs between two `try_send`s. */
    method Yield(gaps: seq<Gap>) returns (rest: seq<Gap>)
      modifies this`channel, this`open, this`delivered
      ensures State() == Pause(old(State()), gaps) && rest == Rest(gaps)
    {
      if gaps == [] { return gaps; }
      var k := if gaps[0].taken <= |channel| then gaps[0].taken else |channel|;
      delivered := delivered + channel[..k];
      channel := channel[k..];
      if gaps[0].closes { open := false; }
      return gaps[1..];
    }

    method TrySend(x: T) returns (r: SendResult)
      modifies this`channel
      ensures r == if !open then Closed else if |old(channel)| < capacity then Sent else Full
      ensures channel == if r == Sent then old(channel) + [x] else old(channel)
    {
      if !open { return Closed; }
      if |channel| >= capacity { return Full; }
      channel := channel + [x];
      return Sent;
    }

    /** Step 1: previously buffered messages first. */
    method DrainSpillover(gaps: seq<Gap>) returns (rest: seq<Gap>)
      modifies this
      ensures (State(), rest) == Drain(old(State()), gaps)
    {
      rest := gaps;
      while spillover != []
        invariant Drain(State(), rest) == Drain(old(State()), gaps)
        decreases |spillover|
      {
        rest := Yield(rest);
        var r := TrySend(spillover[0]);
        if r != Sent { return; }
        spillover := spillover[1..];
      }
    }

    method Buffer(data: T)
      modifies this
      ensures State() == Spill(old(State()), data)
    {
      if |spillover| < spillCap {
        spillover, accepted := spillover + [data], accepted + [data];
      } else {
        dropped := dropped + 1;
      }
    }

    method SendHandleMessage(data: T, gaps: seq<Gap>)
      modifies this
      ensures State() == Offer(old(State()), data, gaps)
    {
      hide Drain, Take;
      received := received + 1;
      var rest := DrainSpillover(gaps);
      if spillover == [] {
        rest := Yield(rest);
        var r := TrySend(data);
        match r {
          case Sent => accepted := accepted + [data];
          case Full => Buffer(data);
          case Closed => lost := lost + 1;
        }
      } else {
        Buffer(data);
      }
    }
  }

  // ------------------------------------------------------------- accounting

  ghost predicate Valid<T>(q: Queue<T>) {
    && |q.channel| <= q.capacity
    && |q.spillover| <= q.spillCap
    && q.delivered + q.channel + q.spillover == q.accepted
    && q.statusDrops <= q.dropped
    && q.received == |q.accepted| + (q.dropped - q.statusDrops) + q.lost
  }

  lemma PauseKeepsOrder<T>(q: Queue<T>, gaps: seq<Gap>)
    ensures var now := Pause(q, gaps);
      && now == q.(channel := now.channel, open := now.open, delivered := now.delivered)
      && now.delivered + now.channel == q.delivered + q.channel
      && |now.channel| <= |q.channel| && (now.open ==> q.open) && q.delivered <= now.delivered
  {
  }

  /** Draining moves nothing out of order and stops short only at a channel
      that is full or closed at that instant. */
  lemma {:induction false} DrainKeepsOrder<T>(q: Queue<T>, gaps: seq<Gap>)
    requires |q.channel| <= q.capacity
    ensures var after := Drain(q, gaps).0;
      && after == q.(channel := after.channel, open := after.open, spillover := after.spillover, delivered := after.delivered)
      && after.delivered + after.channel + after.spillover == q.delivered + q.channel + q.spillover
      && |after.channel| <= q.capacity && |after.spillover| <= |q.spillover| && (after.open ==> q.open)
      && q.delivered <= after.delivered
      && (after.spillover != [] ==> !HasRoom(after))
    decreases |q.spillover|
  {
    if q.spillover != [] {
      var now := Pause(q, gaps);
      PauseKeepsOrder(q, gaps);
      assert now.spillover == [now.spillover[0]] + now.spillover[1..];
      if HasRoom(now) {
        DrainKeepsOrder(
          now.(channel := now.channel + [now.spillover[0]], spillover := now.spillover[1..]), Rest(gaps));
      }
    }
  }

  /** How one call on `q` can end, after the consumer had its turns. */
  ghost predicate Outcome<T>(q: Queue<T>, x: T, after: Queue<T>) {
    || (after.accepted == q.accepted + [x] && after.dropped == q.dropped && after.lost == q.lost)
    || (after.accepted == q.accepted && after.dropped == q.dropped + 1 && after.lost == q.lost
        && |after.spillover| == q.spillCap && (|after.channel| == q.capacity || !after.open))
    || (after.accepted == q.accepted && after.dropped == q.dropped && after.lost == q.lost + 1
        && !after.open && after.spillover == [])
  }

  /** The part of `Offer` after the last turn of the consumer. */
  function Settle<T>(q: Queue<T>, x: T): Queue<T> {
    if q.spillover == [] && HasRoom(q) then q.(channel := q.channel + [x], accepted := q.accepted + [x])
    else if q.spillover != [] || q.open then Spill(q, x)
    else q.(lost := q.lost + 1)
  }

  /** The queue at the last instant of a call at which the consumer acts. */
  function Settled<T>(q: Queue<T>, gaps: seq<Gap>): Queue<T> {
    var (drained, rest) := Drain(q.(received := q.received + 1), gaps);
    if drained.spillover != [] then drained else Pause(drained, rest)
  }

  lemma SettledKeepsOrder<T>(q: Queue<T>, gaps: seq<Gap>)
    requires Valid(q)
    ensures var now := Settled(q, gaps);
      && now == q.(received := q.received + 1, channel := now.channel, open := now.open,
                   spillover := now.spillover, delivered := now.delivered)
      && now.delivered + now.channel + now.spillover == q.accepted
      && |now.channel| <= q.capacity && |now.spillover| <= q.spillCap
      && (now.open ==> q.open) && q.delivered <= now.delivered
      && (now.spillover != [] ==> !HasRoom(now))
  {
    var start := q.(received := q.received + 1);
    DrainKeepsOrder(start, gaps);
    var (drained, rest) := Drain(start, gaps);
    PauseKeepsOrder(drained, rest);
    hide Drain, Pause;
  }

  /** In every interleaving a call either accepts its message in order, drops
      it because both stages were full at one instant (or the channel was
      closed behind a full spillover), or loses it to a closed channel. */
  lemma OfferAccounts<T>(q: Queue<T>, x: T, gaps: seq<Gap>)
    requires Valid(q)
    ensures var after := Offer(q, x, gaps);
      && Valid(after) && Outcome(q, x, after) && q.delivered <= after.delivered && (after.open ==> q.open)
      && after.received == q.received + 1 && after.statusDrops == q.statusDrops
  {
    SettledKeepsOrder(q, gaps);
    var now := Settled(q, gaps);
    assert Offer(q, x, gaps) == Settle(now, x);
    hide Settled, Offer;
    assert now.delivered + (now.channel + [x]) == now.delivered + now.channel + [x];
    assert now.delivered + now.channel + (now.spillover + [x]) == now.delivered + now.channel + now.spillover + [x];
  }

  /** A message is lost exactly at a call that ends with the channel closed and
      nothing spilled, and then the spillover has not been touched. */
  lemma LostExactlyWhen<T>(q: Queue<T>, x: T, gaps: seq<Gap>)
    requires Valid(q)
    ensures var after := Offer(q, x, gaps);
      && after.lost == q.lost + (if !after.open && after.spillover == [] then 1 else 0)
      && (after.lost > q.lost ==> after.accepted == q.accepted && after.dropped == q.dropped)
  {
    SettledKeepsOrder(q, gaps);
    var now := Settled(q, gaps);
    assert Offer(q, x, gaps) == Settle(now, x);
    hide Settled, Offer;
  }

  /** Behind a channel that is already closed nothing moves any more: with
      nothing spilled a message is lost, and otherwise it is spilled up to the
      cap and then dropped, whatever the consumer does meanwhile. */
  lemma ClosedChannelLoses<T>(q: Queue<T>, x: T, gaps: seq<Gap>)
    requires Valid(q) && !q.open
    ensures var after := Offer(q, x, gaps);
      && !after.open
      && (q.spillover == [] ==>
            after.spillover == [] && after.accepted == q.accepted && after.dropped == q.dropped && after.lost == q.lost + 1)
      && (q.spillover != [] ==>
            && after.lost == q.lost
            && (if |q.spillover| < q.spillCap
                then after.spillover == q.spillover + [x] && after.dropped == q.dropped
                else after.spillover == q.spillover && after.dropped == q.dropped + 1))
  {
    OfferAccounts(q, x, gaps);
    assert q.spillover == Drain(q.(received := q.received + 1), gaps).0.spillover;
  }

  // ------------------------------------------------------------- refinement

  /** One plain bounded FIFO. */
  datatype Fifo<T> = Fifo(limit: nat, contents: seq<T>, delivered: seq<T>, dropped: nat)

  function FifoTake<T>(f: Fifo<T>, n: nat): Fifo<T> {
    var k := if n <= |f.contents| then n else |f.contents|;
    f.(contents := f.contents[k..], delivered := f.delivered + f.contents[..k])
  }

  function FifoOffer<T>(f: Fifo<T>, x: T): Fifo<T> {
    if |f.contents| < f.limit then f.(contents := f.contents + [x]) else f.(dropped := f.dropped + 1)
  }

  function Abs<T>(q: Queue<T>): Fifo<T>
    requires q.statusDrops <= q.dropped
  {
    Fifo(q.capacity + q.spillCap, q.channel + q.spillover, q.delivered, q.dropped - q.statusDrops)
  }

  lemma TakeRefines<T>(q: Queue<T>, n: nat)
    requires Valid(q)
    ensures Valid(Take(q, n))
    ensures Abs(Take(q, n)) == FifoTake(Abs(q), if n <= |q.channel| then n else |q.channel|)
  {
    var k := if n <= |q.channel| then n else |q.channel|;
    assert (q.channel + q.spillover)[k..] == q.channel[k..] + q.spillover;
    assert q.delivered + q.channel[..k] + q.channel[k..] == q.delivered + q.channel;
  }

  /** How many messages the consumer took during a call. */
  function TakenDuring<T>(q: Queue<T>, x: T, gaps: seq<Gap>): int {
    |Offer(q, x, gaps).delivered| - |q.delivered|
  }

  /** Up to the last turn of the consumer, a call only let it take messages. */
  lemma SettledIsTaken<T>(q: Queue<T>, gaps: seq<Gap>)
    requires Valid(q)
    ensures var now := Settled(q, gaps);
      && |q.delivered| <= |now.delivered| && now.statusDrops <= now.dropped
      && Abs(now) == FifoTake(Abs(q), |now.delivered| - |q.delivered|)
  {
    SettledKeepsOrder(q, gaps);
    var now := Settled(q, gaps);
    hide Settled, FifoTake, HasRoom;
    Associative(q.delivered, q.channel, q.spillover);
    Associative(now.delivered, now.channel, now.spillover);
    LaterIsTaken(Abs(q), now.delivered, now.channel + now.spillover);
  }

  /** While the channel stays open, a call in any interleaving is one FIFO
      offer of capacity C + S, after the takes the consumer made during it. */
  lemma OfferRefines<T>(q: Queue<T>, x: T, gaps: seq<Gap>)
    requires Valid(q) && Offer(q, x, gaps).open
    ensures TakenDuring(q, x, gaps) >= 0 && Offer(q, x, gaps).statusDrops <= Offer(q, x, gaps).dropped
    ensures Abs(Offer(q, x, gaps)) == FifoOffer(FifoTake(Abs(q), TakenDuring(q, x, gaps)), x)
  {
    SettledKeepsOrder(q, gaps);
    SettledIsTaken(q, gaps);
    var now := Settled(q, gaps);
    assert Offer(q, x, gaps) == Settle(now, x);
    hide Settled, Offer;
    SettleRefines(now, x);
    assert Settle(now, x).delivered == now.delivered;
    hide Abs, Settle, FifoOffer, FifoTake;
  }

  lemma Associative<T>(a: seq<T>, b: seq<T>, c: seq<T>)
    ensures a + b + c == a + (b + c)
  {
  }

  /** A later cut of the same sequence is what the takes in between leave. */
  lemma LaterIsTaken<T>(f: Fifo<T>, delivered: seq<T>, contents: seq<T>)
    requires f.delivered + f.contents == delivered + contents && |f.delivered| <= |delivered|
    ensures FifoTake(f, |delivered| - |f.delivered|) == f.(delivered := delivered, contents := contents)
  {
    assert delivered == (f.delivered + f.contents)[..|delivered|];
    assert contents == (f.delivered + f.contents)[|delivered|..];
  }

  lemma SettleRefines<T>(now: Queue<T>, x: T)
    requires |now.channel| <= now.capacity && |now.spillover| <= now.spillCap && now.open
    requires now.statusDrops <= now.dropped && (now.spillover != [] ==> !HasRoom(now))
    ensures Abs(Settle(now, x)) == FifoOffer(Abs(now), x)
  {
    assert now.channel + (now.spillover + [x]) == now.channel + now.spillover + [x];
  }

  /** With whole calls atomic: accepted exactly when the two stages together
      are below C + S. */
  lemma AtomicOfferAccepts<T>(q: Queue<T>, x: T)
    requires Valid(q) && q.open
    ensures Offer(q, x, []).accepted == (if |q.channel| + |q.spillover| < q.capacity + q.spillCap
                                         then q.accepted + [x] else q.accepted)
    ensures Offer(q, x, []).delivered == q.delivered
  {
    DrainAlone(q.(received := q.received + 1));
    OfferRefines(q, x, []);
    OfferAccounts(q, x, []);
  }

  lemma {:induction false} DrainAlone<T>(q: Queue<T>)
    ensures var after := Drain(q, []).0; after.open == q.open && after.delivered == q.delivered && Drain(q, []).1 == []
    decreases |q.spillover|
  {
    if q.spillover != [] && HasRoom(q) {
      assert q.channel[0..] == q.channel && q.delivered + q.channel[..0] == q.delivered;
      DrainAlone(q.(channel := q.channel + [q.spillover[0]], spillover := q.spillover[1..]));
    }
  }

  // ------------------------------------------------------------- whole runs

  datatype Op<T> =
    | Produce(x: T, gaps: seq<Gap>)  // some producer's call, inside the lock
    | Consume(n: nat)
    | Close
    | StatusDrop                     // the client's status channel was full

  function Apply<T>(q: Queue<T>, op: Op<T>): Queue<T> {
    match op
    case Produce(x, gaps) => Offer(q, x, gaps)
    case Consume(n) => Take(q, n)
    case Close => q.(open := false)
    case StatusDrop => q.(dropped := q.dropped + 1, statusDrops := q.statusDrops + 1)
  }

  function Run<T>(q: Queue<T>, ops: seq<Op<T>>): Queue<T>
    decreases |ops|
  {
    if ops == [] then q else Run(Apply(q, ops[0]), ops[1..])
  }

  function Produced<T>(ops: seq<Op<T>>): seq<T> {
    if ops == [] then [] else (if ops[0].Produce? then [ops[0].x] else []) + Produced(ops[1..])
  }

  /** The message, if this is a call that neither drops nor loses it. */
  function KeptBy<T>(q: Queue<T>, op: Op<T>): seq<T> {
    var after := Apply(q, op);
    if op.Produce? && after.dropped == q.dropped && after.lost == q.lost then [op.x] else []
  }

  /** All such messages, in the order in which the calls took the lock. */
  function Kept<T>(q: Queue<T>, ops: seq<Op<T>>): seq<T>
    decreases |ops|
  {
    if ops == [] then [] else KeptBy(q, ops[0]) + Kept(Apply(q, ops[0]), ops[1..])
  }

  function Empty<T>(capacity: nat, spillCap: nat): Queue<T> {
    Queue(capacity, spillCap, [], true, [], 0, 0, [], [], 0, 0)
  }

  lemma ApplyConserves<T>(q: Queue<T>, op: Op<T>)
    requires Valid(q)
    ensures var after := Apply(q, op);
      && Valid(after) && after.capacity == q.capacity && after.spillCap == q.spillCap
      && after.received == q.received + (if op.Produce? then 1 else 0)
      && after.accepted == q.accepted + KeptBy(q, op)
      && q.delivered <= after.delivered && (after.open ==> q.open)
  {
    if op.Produce? {
      OfferAccounts(q, op.x, op.gaps);
      SettledKeepsOrder(q, op.gaps);
      assert Offer(q, op.x, op.gaps) == Settle(Settled(q, op.gaps), op.x);
    }
    if op.Consume? { TakeRefines(q, op.n); }
    hide Offer, Take, Settled;
  }

  /** Conservation and order over every run: nothing is duplicated, reordered
      or unaccounted for, and both stages keep their bounds. */
  lemma {:induction false} RunConserves<T>(q: Queue<T>, ops: seq<Op<T>>)
    requires Valid(q)
    ensures var end := Run(q, ops);
      && Valid(end) && end.capacity == q.capacity && end.spillCap == q.spillCap
      && end.received == q.received + |Produced(ops)|
      && end.accepted == q.accepted + Kept(q, ops)
      && q.delivered <= end.delivered && (end.open ==> q.open)
    decreases |ops|
  {
    hide Apply, Valid, KeptBy;
    if ops != [] {
      ApplyConserves(q, ops[0]);
      RunConserves(Apply(q, ops[0]), ops[1..]);
      Associative(q.accepted, KeptBy(q, ops[0]), Kept(Apply(q, ops[0]), ops[1..]));
    }
  }

  /** From an empty queue on: what was handed over, waits in the channel and
      waits behind it is exactly what was kept, in order, and the counters
      explain everything else. */
  lemma EveryMessageAccountedFor<T>(capacity: nat, spillCap: nat, ops: seq<Op<T>>)
    ensures var q := Run(Empty(capacity, spillCap), ops);
      && q.delivered + q.channel + q.spillover == Kept(Empty(capacity, spillCap), ops)
      && |q.channel| <= capacity && |q.spillover| <= spillCap
      && q.received == |Produced(ops)|
      && q.received == |Kept(Empty(capacity, spillCap), ops)| + (q.dropped - q.statusDrops) + q.lost
  {
    RunConserves(Empty(capacity, spillCap), ops);
    hide Run, Kept;
  }

  /** The calls of a run that ended with the channel closed and nothing spilled. */
  function Losses<T>(q: Queue<T>, ops: seq<Op<T>>): nat
    decreases |ops|
  {
    if ops == [] then 0
    else
      var after := Apply(q, ops[0]);
      (if ops[0].Produce? && !after.open && after.spillover == [] then 1 else 0) + Losses(after, ops[1..])
  }

  /** Over every run the losses are those calls and no others. */
  lemma {:induction false} RunLosesExactly<T>(q: Queue<T>, ops: seq<Op<T>>)
    requires Valid(q)
    ensures Run(q, ops).lost == q.lost + Losses(q, ops)
    decreases |ops|
  {
    if ops != [] {
      var op := ops[0];
      ApplyConserves(q, op);
      if op.Produce? { LostExactlyWhen(q, op.x, op.gaps); }
      hide Offer, Valid, KeptBy;
      RunLosesExactly(Apply(q, op), ops[1..]);
    }
  }

  function FifoRun<T>(f: Fifo<T>, ops: seq<FifoOp<T>>): Fifo<T>
    decreases |ops|
  {
    if ops == [] then f
    else FifoRun(match ops[0] case Put(x) => FifoOffer(f, x) case Get(n) => FifoTake(f, n), ops[1..])
  }

  datatype FifoOp<T> = Put(x: T) | Get(n: nat)

  /** The same run, as the plain FIFO sees it. */
  function Linearize<T>(q: Queue<T>, ops: seq<Op<T>>): seq<FifoOp<T>>
    decreases |ops|
  {
    if ops == [] then []
    else
      var tail := Linearize(Apply(q, ops[0]), ops[1..]);
      match ops[0]
      case Produce(x, gaps) =>
        var k := TakenDuring(q, x, gaps);
        [Get(if k >= 0 then k else 0), Put(x)] + tail
      case Consume(n) => [Get(if n <= |q.channel| then n else |q.channel|)] + tail
      case _ => tail
  }

  /** Every run in which the channel is open to the end is a run of one plain
      FIFO of capacity C + S: same contents, same deliveries, same drops. */
  lemma {:induction false} RunRefinesFifo<T>(q: Queue<T>, ops: seq<Op<T>>)
    requires Valid(q) && Run(q, ops).open
    ensures Valid(Run(q, ops))
    ensures Abs(Run(q, ops)) == FifoRun(Abs(q), Linearize(q, ops))
    decreases |ops|
  {
    RunConserves(q, ops);
    if ops != [] {
      var op, next := ops[0], Apply(q, ops[0]);
      ApplyConserves(q, op);
      RunConserves(next, ops[1..]);
      if op.Produce? { OfferRefines(q, op.x, op.gaps); }
      if op.Consume? { TakeRefines(q, op.n); }
      hide Offer, Take, FifoOffer, FifoTake, TakenDuring, KeptBy, Kept;
      RunRefinesFifo(next, ops[1..]);
    }
  }
}
