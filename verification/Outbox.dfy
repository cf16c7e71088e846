/** One outgoing channel and the writer loop that drains it onto a socket: the
    client's (src/helpers/get_internal_websocket.rs:286-322) and the server's
    (src/helpers/internal_server.rs:590-606). */
module Outboxes {
  import opened Results
  import opened Wire

  /** A written frame that ends the loop: a Disconnect, or one too short to
      carry a category. */
  predicate Stops(frame: Frame) {
    GetDataSchema(frame).None? || IsDisconnect(frame)
  }

  /** In bytes: fewer than two, or the code 10003, low byte first. */
  lemma StopsExactlyWhen(frame: Frame)
    ensures Stops(frame) <==> |frame| < 2 || (frame[0] == 0x13 && frame[1] == 0x27)
  {
  }

  lemma DisconnectStops(peer: Text)
    ensures IsDisconnect(MakeDisconnect(peer)) && Stops(MakeDisconnect(peer))
  {
    FrameExact(MakeDisconnect(peer), Data(Code(Disconnect), EncodeRecord([Raw(peer)], DISCONNECT)));
  }

  /** Health traffic never ends a connection. */
  lemma HealthTrafficDoesNotStop(peer: Text)
    ensures !Stops(MakePing(peer)) && !Stops(MakePong())
  {
    PingIsUnderstood(peer);
    FrameExact(MakePong(), Data(Code(Pong), []));
  }

  // --------------------------------------------------------------- the loop

  /** What a finished loop has put on the wire, out of what reached it: a
      prefix, nothing after a stopping frame, and all of it unless a stopping
      frame or the first failing write came earlier. */
  ghost predicate LoopOutput(incoming: seq<Frame>, writes: nat, wire: seq<Frame>, closed: bool) {
    && wire <= incoming
    && |wire| <= writes
    && (forall i :: 0 <= i < |wire| - 1 ==> !Stops(wire[i]))
    && (closed <==> wire != [] && Stops(wire[|wire| - 1]))
    && (closed || |wire| == writes || wire == incoming)
  }

  /** `incoming` is what the channel yields, in order; `writes` is how many
      socket writes succeed before one fails. */
  method WriterLoop(incoming: seq<Frame>, writes: nat) returns (wire: seq<Frame>, closed: bool)
    ensures LoopOutput(incoming, writes, wire, closed)
    ensures closed <==> wire != [] && var last := wire[|wire| - 1]; |last| < 2 || (last[0] == 0x13 && last[1] == 0x27)
  {
    wire, closed := [], false;
    var next := 0;
    while next < |incoming|
      invariant 0 <= next <= |incoming| && next <= writes && wire == incoming[..next]
      invariant !closed && forall i :: 0 <= i < |wire| ==> !Stops(wire[i])
    {
      var message := incoming[next];
      if next == writes { return; }
      wire, next := wire + [message], next + 1;
      var data := GetDataSchema(message);
      if data.None? {
        closed := true;
        return;
      }
      if data.value.category == Code(Disconnect) {
        closed := true;
        return;
      }
    }
  }

  lemma LoopOutputUnique(incoming: seq<Frame>, writes: nat, w1: seq<Frame>, c1: bool, w2: seq<Frame>, c2: bool)
    requires LoopOutput(incoming, writes, w1, c1) && LoopOutput(incoming, writes, w2, c2)
    ensures w1 == w2 && c1 == c2
  {
    assert w1 == incoming[..|w1|] && w2 == incoming[..|w2|];
  }

  // ------------------------------------------- the loop among its producers

  /** Why a loop ended: it wrote a stopping frame, a write failed, the reader's
      stream ended, or its task was dropped. */
  datatype Cause = Stopped | WriteFailed(frame: Frame) | StreamEnded | Dropped

  /** The client's handler sends a Ping of its own into the channel and waits
      for that `send` before its loop begins: it is `Opening` before it asks and
      `Greeting` while it waits. The server's handler begins at `Starting`. */
  datatype Writer = Opening | Greeting | Starting | Idle | Busy(frame: Frame) | Exited(cause: Cause)

  /** A `send` that has begun and not finished. One that is not patient may be
      given up, by its timeout or with the task that awaits it; the one that
      `opens` is the handler's own. */
  datatype Send = Send(frame: Frame, patient: bool, opens: bool)

  /** A bounded channel serves blocked senders in the order they asked: a slot
      that becomes free belongs to the first of `waiting`, which then counts
      among `granted` until its task runs again and puts its frame in `queue`.
      `accepted`, `taken` and `wire` are history: every frame put in the queue,
      taken out of it by the loop, and taken by the socket. */
  datatype Outbox = Outbox(
    capacity: nat, queue: seq<Frame>, granted: seq<Send>, waiting: seq<Send>, open: bool, writer: Writer,
    accepted: seq<Frame>, taken: seq<Frame>, wire: seq<Frame>)

  datatype OutboxStep =
    | Ask(send: Send)       // any producer's `send` begins
    | Put(k: nat)           // the k-th sender with a slot runs on
    | GiveBack(k: nat)      // the k-th sender with a slot is given up
    | Leave(k: nat)         // the k-th blocked sender is given up
    | Greet(peer: Text)     // the handler's own `send` begins
    | SkipGreeting          // pings are off, or the sender is gone
    | Start                 // the loop begins
    | Receive               // `rx.recv()` yields a message
    | Write                 // the socket write returns
    | WriteFails            // the socket write fails
    | StreamEnds            // the reader's end of stream is noticed
    | DropReceiver          // the handler returns

  function NewOutbox(capacity: nat, writer: Writer): Outbox {
    Outbox(capacity, [], [], [], true, writer, [], [], [])
  }

  function OpeningSend(peer: Text): Send {
    Send(MakePing(peer), true, true)
  }

  function Without<T>(s: seq<T>, k: nat): seq<T>
    requires k < |s|
  {
    s[..k] + s[k + 1..]
  }

  predicate HasFreeSlot(o: Outbox) {
    |o.queue| + |o.granted| < o.capacity
  }

  /** A new `send` gets a free slot, or waits behind the others. */
  function Enter(o: Outbox, send: Send): Outbox {
    if HasFreeSlot(o) then o.(granted := o.granted + [send]) else o.(waiting := o.waiting + [send])
  }

  /** A slot has become free. */
  function FreeSlot(o: Outbox): Outbox {
    if o.waiting == [] then o else o.(granted := o.granted + [o.waiting[0]], waiting := o.waiting[1..])
  }

  /** The receiver goes away, with the loop if it still runs. */
  function Close(o: Outbox): Outbox {
    o.(open := false, writer := if o.writer.Exited? then o.writer else Exited(Dropped))
  }

  function Next(o: Outbox, step: OutboxStep): Option<Outbox> {
    match step
    case Ask(send) =>
      if !o.open || send.opens then None else Some(Enter(o, send))
    case Put(k) =>
      if !o.open || k >= |o.granted| then None
      else
        var send := o.granted[k];
        Some(o.(granted := Without(o.granted, k), queue := o.queue + [send.frame], accepted := o.accepted + [send.frame],
                writer := if send.opens && o.writer == Greeting then Starting else o.writer))
    case GiveBack(k) =>
      if k >= |o.granted| || o.granted[k].patient || o.granted[k].opens then None
      else Some(FreeSlot(o.(granted := Without(o.granted, k))))
    case Leave(k) =>
      if k >= |o.waiting| || o.waiting[k].patient || o.waiting[k].opens then None else Some(o.(waiting := Without(o.waiting, k)))
    case Greet(peer) =>
      if o.writer == Opening && o.open then Some(Enter(o.(writer := Greeting), OpeningSend(peer))) else None
    case SkipGreeting => if o.writer == Opening then Some(o.(writer := Starting)) else None
    case Start => if o.writer == Starting then Some(o.(writer := Idle)) else None
    case Receive =>
      if o.writer != Idle || o.queue == [] then None
      else
        var frame := o.queue[0];
        Some(FreeSlot(o.(writer := Busy(frame), queue := o.queue[1..], taken := o.taken + [frame])))
    case Write =>
      if !o.writer.Busy? then None
      else
        var after := o.(wire := o.wire + [o.writer.frame]);
        Some(if Stops(o.writer.frame) then after.(open := false, writer := Exited(Stopped)) else after.(writer := Idle))
    case WriteFails => if o.writer.Busy? then Some(o.(writer := Exited(WriteFailed(o.writer.frame)))) else None
    case StreamEnds => if o.writer == Idle then Some(o.(writer := Exited(StreamEnded))) else None
    case DropReceiver => if o.writer.Exited? then Some(Close(o)) else None
  }

  predicate IsWriterStep(step: OutboxStep) {
    step.Greet? || step.SkipGreeting? || IsLoopStep(step)
  }

  predicate IsLoopStep(step: OutboxStep) {
    step.Start? || step.Receive? || step.Write? || step.WriteFails? || step.StreamEnds?
  }

  /** What a sender that has asked goes on to do. */
  predicate IsSlotStep(step: OutboxStep) {
    step.Put? || step.GiveBack? || step.Leave?
  }

  predicate IsGiveUp(step: OutboxStep) {
    step.GiveBack? || step.Leave?
  }

  /** The frame the loop has taken and the socket has not, if any. */
  function InHand(writer: Writer): seq<Frame> {
    match writer
    case Busy(frame) => [frame]
    case Exited(WriteFailed(frame)) => [frame]
    case _ => []
  }

  predicate NoneOpens(sends: seq<Send>) {
    forall i :: 0 <= i < |sends| ==> !sends[i].opens
  }

  ghost predicate Valid(o: Outbox) {
    && |o.queue| + |o.granted| <= o.capacity
    && (o.waiting != [] ==> |o.queue| + |o.granted| == o.capacity)
    && (o.writer.Exited? || o.open)
    && o.accepted == o.taken + o.queue
    && (if o.writer == Exited(Dropped) then o.wire <= o.taken else o.taken == o.wire + InHand(o.writer))
    && (forall i :: 0 <= i < |o.wire| - 1 ==> !Stops(o.wire[i]))
    && (o.writer == Exited(Stopped) <==> o.wire != [] && Stops(o.wire[|o.wire| - 1]))
    && (o.writer == Exited(Stopped) ==> !o.open)
    && OpeningTracked(o)
  }

  /** The handler's own `send` is in the channel's hands exactly while the
      handler waits for it. */
  ghost predicate OpeningTracked(o: Outbox) {
    && (o.writer.Opening? ==> NoneOpens(o.granted) && NoneOpens(o.waiting))
    && (o.writer.Greeting? ==> !NoneOpens(o.granted) || !NoneOpens(o.waiting))
  }

  lemma OpeningMoves(sends: seq<Send>, send: Send, k: nat)
    ensures !NoneOpens(sends) || send.opens ==> !NoneOpens(sends + [send])
    ensures k < |sends| && !NoneOpens(sends) && !sends[k].opens ==> !NoneOpens(Without(sends, k))
    ensures !NoneOpens(sends) ==> sends[0].opens || !NoneOpens(sends[1..])
  {
    assert (sends + [send])[|sends|] == send;
    if i :| 0 <= i < |sends| && sends[i].opens {
      assert (sends + [send])[i] == sends[i];
      assert i > 0 ==> sends[1..][i - 1] == sends[i];
      if k < |sends| && k != i {
        assert Without(sends, k)[if i < k then i else i - 1] == sends[i];
      }
    }
  }

  /** In every interleaving of producers and writer, queue and slots stay within
      the capacity, nobody waits while there is room, nothing is lost or
      reordered on the way from queue to wire, and nothing on the wire follows
      its first stopping frame. */
  lemma StepKeepsValid(o: Outbox, step: OutboxStep)
    requires Valid(o) && Next(o, step).Some?
    ensures Valid(Next(o, step).value) && Next(o, step).value.capacity == o.capacity
    ensures Unopened(Next(o, step).value.writer) <= Unopened(o.writer)
  {
    hide Stops;
    if IsSlotStep(step) || step.Ask? || step.Greet? {
      SenderStepKeepsOpening(o, step);
      hide InHand, NoneOpens;
      if step.Put? {
        assert o.taken + (o.queue + [o.granted[step.k].frame]) == o.taken + o.queue + [o.granted[step.k].frame];
      }
    } else {
      LoopStepKeepsValid(o, step);
    }
  }

  lemma SenderStepKeepsOpening(o: Outbox, step: OutboxStep)
    requires OpeningTracked(o) && (IsSlotStep(step) || step.Ask? || step.Greet?) && Next(o, step).Some?
    ensures OpeningTracked(Next(o, step).value)
  {
    hide MakePing;
    var send := if step.Ask? then step.send else if step.Greet? then OpeningSend(step.peer) else Send([], false, false);
    var k := if IsSlotStep(step) then step.k else 0;
    OpeningMoves(o.granted, send, k);
    OpeningMoves(o.waiting, send, k);
    if step.GiveBack? && o.waiting != [] {
      OpeningMoves(Without(o.granted, k), o.waiting[0], 0);
    }
  }

  lemma LoopStepKeepsValid(o: Outbox, step: OutboxStep)
    requires Valid(o) && !IsSlotStep(step) && !step.Ask? && !step.Greet? && Next(o, step).Some?
    ensures Valid(Next(o, step).value) && Next(o, step).value.capacity == o.capacity
    ensures Unopened(Next(o, step).value.writer) <= Unopened(o.writer)
  {
    if step.Receive? {
      ReceiveKeepsValid(o);
    } else if step.Write? {
      WriteKeepsValid(o);
    } else {
      hide Stops;
    }
  }

  lemma ReceiveKeepsValid(o: Outbox)
    requires Valid(o) && o.writer.Idle? && o.queue != []
    ensures Valid(Next(o, Receive).value)
  {
    hide Stops;
    assert o.taken + o.queue == o.taken + [o.queue[0]] + o.queue[1..];
  }

  lemma WriteKeepsValid(o: Outbox)
    requires Valid(o) && o.writer.Busy?
    ensures Valid(Next(o, Write).value)
  {
    hide Stops;
  }

  lemma CloseKeepsValid(o: Outbox)
    requires Valid(o)
    ensures Valid(Close(o))
  {
  }

  lemma RunningWasRunning(o: Outbox, step: OutboxStep)
    requires Next(o, step).Some?
    ensures !Next(o, step).value.writer.Exited? ==> !o.writer.Exited? && Next(o, step).value.open == o.open
  {
  }

  /** How many writes succeeded before the one, if any, that did not. */
  function Writes(o: Outbox): nat {
    if InHand(o.writer) != [] || o.writer == Exited(Dropped) then |o.wire| else |o.taken|
  }

  /** The interleaved loop puts on the wire what the loop alone would have,
      given the frames it took from the channel and the same failing write. It
      ends early only for one of the causes, and an idle loop with an empty
      queue has written everything. */
  lemma InterleavedLoopOutput(o: Outbox)
    requires Valid(o)
    ensures o.taken + o.queue == o.accepted
    ensures LoopOutput(o.taken, Writes(o), o.wire, o.writer == Exited(Stopped))
    ensures o.wire == o.taken || o.writer.Busy? || o.writer == Exited(Dropped) || (o.writer.Exited? && o.writer.cause.WriteFailed?)
    ensures o.writer.Idle? && o.queue == [] ==> o.wire == o.accepted
  {
    hide Stops;
  }

  // ------------------------------------------------------------ termination

  function FirstStop(frames: seq<Frame>): (n: nat)
    ensures n <= |frames|
    ensures n < |frames| ==> Stops(frames[n])
    ensures forall i :: 0 <= i < n ==> !Stops(frames[i])
  {
    if frames == [] || Stops(frames[0]) then 0 else 1 + FirstStop(frames[1..])
  }

  /** A `send` that stays until a stopping frame is in the queue. */
  predicate IsLast(send: Send) {
    send.patient && Stops(send.frame)
  }

  function FirstLast(sends: seq<Send>): (n: nat)
    ensures n <= |sends|
    ensures n < |sends| ==> IsLast(sends[n])
    ensures forall i :: 0 <= i < n ==> !IsLast(sends[i])
  {
    if sends == [] || IsLast(sends[0]) then 0 else 1 + FirstLast(sends[1..])
  }

  predicate Queued(o: Outbox) {
    FirstStop(o.queue) < |o.queue|
  }

  predicate Writing(o: Outbox) {
    o.writer.Exited? || (o.writer.Busy? && Stops(o.writer.frame))
  }

  predicate HasSlot(o: Outbox) {
    FirstLast(o.granted) < |o.granted|
  }

  /** A stopping frame is written, being written, queued, or about to be queued
      by a sender that has a slot or waits for one. */
  predicate Doomed(o: Outbox) {
    Writing(o) || Queued(o) || HasSlot(o) || FirstLast(o.waiting) < |o.waiting|
  }

  /** All that is missing is a turn for a sender whose slot is there. */
  predicate AwaitsSender(o: Outbox) {
    !Writing(o) && !Queued(o) && HasSlot(o)
  }

  /** The most writer steps a doomed loop has left, not counting those it takes
      while it `AwaitsSender`. */
  function StepsLeft(o: Outbox): nat {
    var begun := Unopened(o.writer) + if o.writer.Idle? then 0 else 1;
    if o.writer.Exited? then 0
    else if Writing(o) then 1
    else if Queued(o) then 2 * FirstStop(o.queue) + 2 + begun
    else if HasSlot(o) then 2 * o.capacity + 1 + Unopened(o.writer)
    else 2 * o.capacity + 2 + 2 * FirstLast(o.waiting) + begun
  }

  /** What the handler has to do before its loop can start. */
  function Unopened(writer: Writer): nat {
    match writer
    case Opening => 2
    case Greeting => 1
    case _ => 0
  }

  lemma {:induction false} FirstStopAppend(frames: seq<Frame>, frame: Frame)
    ensures FirstStop(frames) < |frames| ==> FirstStop(frames + [frame]) == FirstStop(frames)
    ensures FirstStop(frames) == |frames| && Stops(frame) ==> FirstStop(frames + [frame]) == |frames|
    ensures FirstStop(frames) == |frames| && !Stops(frame) ==> FirstStop(frames + [frame]) == |frames| + 1
  {
    if frames != [] && !Stops(frames[0]) {
      FirstStopAppend(frames[1..], frame);
      assert (frames + [frame])[1..] == frames[1..] + [frame];
    }
  }

  lemma FirstLastAtMost(sends: seq<Send>, i: nat)
    requires i < |sends|
    ensures IsLast(sends[i]) ==> FirstLast(sends) <= i
  {
    hide IsLast;
    assert FirstLast(sends) > i ==> !IsLast(sends[i]);
  }

  lemma FirstLastInLonger(sends: seq<Send>, send: Send)
    ensures FirstLast(sends) < |sends| ==> FirstLast(sends + [send]) <= FirstLast(sends)
    ensures IsLast(send) ==> FirstLast(sends + [send]) <= |sends|
  {
    var n := FirstLast(sends);
    hide IsLast, FirstLast;
    FirstLastAtMost(sends + [send], |sends|);
    if n < |sends| {
      FirstLastAtMost(sends + [send], n);
    }
  }

  lemma FirstLastInShorter(sends: seq<Send>, k: nat)
    requires k < |sends| && FirstLast(sends) < |sends| && !IsLast(sends[k])
    ensures FirstLast(Without(sends, k)) <= FirstLast(sends) && FirstLast(Without(sends, k)) < |sends| - 1
  {
    var n := FirstLast(sends);
    hide IsLast, FirstLast;
    var i := if n < k then n else n - 1;
    var rest := Without(sends, k);
    assert n != k && rest[i] == sends[n];
    hide Without;
    FirstLastAtMost(rest, i);
  }

  /** A last `send` is no later in a longer list, and stays when another goes. */
  lemma FirstLastMoves(sends: seq<Send>, send: Send, k: nat)
    ensures FirstLast(sends) < |sends| ==> FirstLast(sends + [send]) <= FirstLast(sends)
    ensures IsLast(send) ==> FirstLast(sends + [send]) <= |sends|
    ensures k < |sends| && FirstLast(sends) < |sends| && !IsLast(sends[k]) ==>
      FirstLast(Without(sends, k)) <= FirstLast(sends) && FirstLast(Without(sends, k)) < |sends| - 1
  {
    hide IsLast, FirstLast, Without;
    FirstLastInLonger(sends, send);
    if k < |sends| && FirstLast(sends) < |sends| && !IsLast(sends[k]) {
      FirstLastInShorter(sends, k);
    }
  }

  /** The first of the waiting moves up. */
  lemma FreeSlotHelps(o: Outbox)
    requires Doomed(o)
    ensures var after := FreeSlot(o);
      Doomed(after) && StepsLeft(after) + (if Writing(o) || Queued(o) || HasSlot(o) then 0 else if o.writer.Idle? then 1 else 2)
                       <= StepsLeft(o)
  {
    hide Stops, IsLast, FirstStop;
    if o.waiting != [] {
      FirstLastMoves(o.granted, o.waiting[0], 0);
    }
  }

  lemma EnterKeepsDoom(o: Outbox, send: Send)
    requires Doomed(o)
    ensures Doomed(Enter(o, send)) && StepsLeft(Enter(o, send)) <= StepsLeft(o)
  {
    FirstLastMoves(o.granted, send, 0);
    FirstLastMoves(o.waiting, send, 0);
    hide FirstLast, FirstStop, Stops;
  }

  lemma GiveUpKeepsDoom(o: Outbox, step: OutboxStep)
    requires Doomed(o) && IsGiveUp(step) && Next(o, step).Some?
    ensures Doomed(Next(o, step).value) && StepsLeft(Next(o, step).value) <= StepsLeft(o)
  {
    if step.GiveBack? {
      FirstLastMoves(o.granted, o.granted[step.k], step.k);
      hide FirstLast, FirstStop, Stops;
      FreeSlotHelps(o.(granted := Without(o.granted, step.k)));
    } else {
      FirstLastMoves(o.waiting, o.waiting[step.k], step.k);
      hide FirstLast, FirstStop, Stops;
    }
  }

  lemma PutKeepsDoom(o: Outbox, k: nat)
    requires Valid(o) && Doomed(o) && Next(o, Put(k)).Some?
    ensures Doomed(Next(o, Put(k)).value) && StepsLeft(Next(o, Put(k)).value) <= StepsLeft(o)
  {
    hide Stops, FirstStop, FirstLast;
    var send := o.granted[k];
    FirstStopAppend(o.queue, send.frame);
    FirstLastMoves(o.granted, send, k);
  }

  lemma WriterKeepsDoom(o: Outbox, step: OutboxStep)
    requires Doomed(o) && IsWriterStep(step) && Next(o, step).Some?
    ensures var after := Next(o, step).value;
      Doomed(after) && StepsLeft(after) + (if AwaitsSender(o) then 0 else 1) <= StepsLeft(o)
  {
    if step.Greet? {
      hide FirstLast, FirstStop, OpeningSend, Stops;
      EnterKeepsDoom(o.(writer := Greeting), OpeningSend(step.peer));
    } else if step.Receive? {
      ReceiveKeepsDoom(o);
      hide Next, StepsLeft, Doomed;
    } else {
      hide FirstLast, FirstStop, Stops, IsLast;
    }
  }

  lemma ReceiveKeepsDoom(o: Outbox)
    requires Doomed(o) && Next(o, Receive).Some?
    ensures var after := Next(o, Receive).value;
      Doomed(after) && StepsLeft(after) + (if AwaitsSender(o) then 0 else 1) <= StepsLeft(o)
  {
    hide Stops, FirstLast;
    var frame := o.queue[0];
    var moved := o.(writer := Busy(frame), queue := o.queue[1..], taken := o.taken + [frame]);
    assert FirstStop(o.queue) == if Stops(frame) then 0 else 1 + FirstStop(moved.queue);
    hide FirstStop;
    assert Doomed(moved);
    FreeSlotHelps(moved);
    hide FreeSlot;
  }

  /** That turn is there to be taken, and once taken it is the queue's front
      that decides. */
  lemma AwaitedSenderCanRun(o: Outbox)
    requires Valid(o) && AwaitsSender(o)
    ensures Next(o, Put(FirstLast(o.granted))).Some?
    ensures Queued(Next(o, Put(FirstLast(o.granted))).value)
  {
    hide Stops;
    FirstStopAppend(o.queue, o.granted[FirstLast(o.granted)].frame);
  }

  /** Two steps for each frame and sender ahead, at most, and one more. */
  lemma StepsLeftBound(o: Outbox)
    requires Valid(o) && Doomed(o)
    ensures StepsLeft(o) <= 2 * (o.capacity + |o.waiting|) + 1 + Unopened(o.writer)
  {
    hide Stops, IsLast;
  }

  /** Whatever producers do, a doomed loop stays doomed, and every writer step
      brings its end nearer unless a sender that has a slot is not let run. */
  lemma StepKeepsDoom(o: Outbox, step: OutboxStep)
    requires Valid(o) && Doomed(o) && Next(o, step).Some?
    ensures var after := Next(o, step).value;
      Doomed(after) && StepsLeft(after) + (if IsWriterStep(step) && !AwaitsSender(o) then 1 else 0) <= StepsLeft(o)
  {
    hide FirstLast, FirstStop, Stops;
    if IsWriterStep(step) {
      WriterKeepsDoom(o, step);
    } else if step.Put? {
      PutKeepsDoom(o, step.k);
    } else if step.Ask? {
      EnterKeepsDoom(o, step.send);
    } else if IsGiveUp(step) {
      GiveUpKeepsDoom(o, step);
    }
  }

  lemma NoticeDooms(o: Outbox, peer: Text)
    requires Next(o, Ask(Send(MakeDisconnect(peer), true, false))).Some?
    ensures Doomed(Next(o, Ask(Send(MakeDisconnect(peer), true, false))).value)
  {
    DisconnectStops(peer);
    var send := Send(MakeDisconnect(peer), true, false);
    FirstLastMoves(o.granted, send, 0);
    FirstLastMoves(o.waiting, send, 0);
    hide Stops, FirstLast, MakeDisconnect;
  }

  function Run(o: Outbox, steps: seq<OutboxStep>): Option<Outbox>
    decreases |steps|
  {
    if steps == [] then Some(o)
    else
      var next := Next(o, steps[0]);
      if next.None? then None else Run(next.value, steps[1..])
  }

  /** The writer steps of a run, apart from those it takes while all that is
      missing is a turn for a sender whose slot is there. */
  function WriterSteps(o: Outbox, steps: seq<OutboxStep>): nat
    requires Run(o, steps).Some?
    decreases |steps|
  {
    if steps == [] then 0
    else
      (if IsWriterStep(steps[0]) && !AwaitsSender(o) then 1 else 0) + WriterSteps(Next(o, steps[0]).value, steps[1..])
  }

  /** Once a stopping frame is being sent, even by a sender blocked behind any
      number of others, the loop ends within `StepsLeft` of its own steps,
      however many frames producers add meanwhile. */
  lemma {:induction false} DoomedLoopEnds(o: Outbox, steps: seq<OutboxStep>)
    requires Valid(o) && Doomed(o) && Run(o, steps).Some?
    ensures Doomed(Run(o, steps).value)
    ensures StepsLeft(Run(o, steps).value) + WriterSteps(o, steps) <= StepsLeft(o)
    ensures WriterSteps(o, steps) >= StepsLeft(o) ==> Run(o, steps).value.writer.Exited?
    decreases |steps|
  {
    hide Next, Valid, AwaitsSender, Queued, HasSlot;
    if steps != [] {
      StepKeepsDoom(o, steps[0]);
      StepKeepsValid(o, steps[0]);
      DoomedLoopEnds(Next(o, steps[0]).value, steps[1..]);
    }
  }

  lemma {:induction false} RunKeepsValid(o: Outbox, steps: seq<OutboxStep>)
    requires Valid(o) && Run(o, steps).Some?
    ensures Valid(Run(o, steps).value)
    decreases |steps|
  {
    hide Next, Valid;
    if steps != [] {
      StepKeepsValid(o, steps[0]);
      RunKeepsValid(Next(o, steps[0]).value, steps[1..]);
    }
  }

  // -------------------------------------------------------- a Disconnect due

  predicate IsNotice(send: Send) {
    send.patient && IsDisconnect(send.frame)
  }

  predicate HasDisconnect(frames: seq<Frame>) {
    exists i :: 0 <= i < |frames| && IsDisconnect(frames[i])
  }

  predicate HasNotice(sends: seq<Send>) {
    exists i :: 0 <= i < |sends| && IsNotice(sends[i])
  }

  /** A Disconnect is being written, queued, or about to be queued by a sender
      that has a slot or waits for one. */
  predicate DisconnectDue(o: Outbox) {
    || (o.writer.Busy? && IsDisconnect(o.writer.frame))
    || HasDisconnect(o.queue) || HasNotice(o.granted) || HasNotice(o.waiting)
  }

  lemma DueIsDoomed(o: Outbox)
    requires DisconnectDue(o)
    ensures Doomed(o)
  {
    hide IsDisconnect;
    if i :| 0 <= i < |o.queue| && IsDisconnect(o.queue[i]) {
      assert Stops(o.queue[i]);
    }
    if i :| 0 <= i < |o.granted| && IsNotice(o.granted[i]) {
      assert IsLast(o.granted[i]);
    }
    if i :| 0 <= i < |o.waiting| && IsNotice(o.waiting[i]) {
      assert IsLast(o.waiting[i]);
    }
  }

  lemma NoticeIsDue(o: Outbox, peer: Text)
    requires Next(o, Ask(Send(MakeDisconnect(peer), true, false))).Some?
    ensures DisconnectDue(Next(o, Ask(Send(MakeDisconnect(peer), true, false))).value)
  {
    DisconnectStops(peer);
    var send := Send(MakeDisconnect(peer), true, false);
    NoticeMoves(o.granted, send, 0);
    NoticeMoves(o.waiting, send, 0);
    hide IsDisconnect, HasNotice, MakeDisconnect;
  }

  lemma NoticeMoves(sends: seq<Send>, send: Send, k: nat)
    ensures HasNotice(sends) || IsNotice(send) ==> HasNotice(sends + [send])
    ensures k < |sends| && HasNotice(sends) && !IsNotice(sends[k]) ==> HasNotice(Without(sends, k))
  {
    assert (sends + [send])[|sends|] == send;
    if i :| 0 <= i < |sends| && IsNotice(sends[i]) {
      assert (sends + [send])[i] == sends[i];
      if k < |sends| && !IsNotice(sends[k]) {
        assert Without(sends, k)[if i < k then i else i - 1] == sends[i];
      }
    }
  }

  lemma FreeSlotKeepsDue(o: Outbox)
    requires DisconnectDue(o)
    ensures DisconnectDue(FreeSlot(o))
  {
    hide IsDisconnect, IsNotice, HasDisconnect;
    if o.waiting != [] {
      NoticeMoves(o.granted, o.waiting[0], 0);
      assert HasNotice(o.waiting) ==> IsNotice(o.waiting[0]) || HasNotice(o.waiting[1..]) by { NoticeInRest(o.waiting); }
    }
  }

  lemma NoticeInRest(sends: seq<Send>)
    requires sends != []
    ensures HasNotice(sends) ==> IsNotice(sends[0]) || HasNotice(sends[1..])
  {
    if i :| 0 < i < |sends| && IsNotice(sends[i]) {
      assert sends[1..][i - 1] == sends[i];
    }
  }

  lemma DisconnectMoves(frames: seq<Frame>, frame: Frame)
    ensures HasDisconnect(frames) || IsDisconnect(frame) ==> HasDisconnect(frames + [frame])
    ensures HasDisconnect(frames) ==> IsDisconnect(frames[0]) || HasDisconnect(frames[1..])
  {
    assert (frames + [frame])[|frames|] == frame;
    if i :| 0 <= i < |frames| && IsDisconnect(frames[i]) {
      assert (frames + [frame])[i] == frames[i];
      assert i > 0 ==> frames[1..][i - 1] == frames[i];
    }
  }

  /** A Disconnect on its way is not lost while the loop runs. */
  lemma StepKeepsDue(o: Outbox, step: OutboxStep)
    requires DisconnectDue(o) && Next(o, step).Some? && !Next(o, step).value.writer.Exited?
    ensures DisconnectDue(Next(o, step).value)
  {
    if step.Receive? {
      var frame := o.queue[0];
      DisconnectMoves(o.queue, frame);
      FreeSlotKeepsDue(o.(writer := Busy(frame), queue := o.queue[1..], taken := o.taken + [frame]));
    } else if step.Put? {
      NoticeMoves(o.granted, o.granted[step.k], step.k);
      DisconnectMoves(o.queue, o.granted[step.k].frame);
    } else if step.Ask? || step.Greet? {
      var send := if step.Ask? then step.send else OpeningSend(step.peer);
      NoticeMoves(o.granted, send, 0);
      NoticeMoves(o.waiting, send, 0);
    } else if step.GiveBack? {
      NoticeMoves(o.granted, o.granted[step.k], step.k);
      FreeSlotKeepsDue(o.(granted := Without(o.granted, step.k)));
    } else if step.Leave? {
      NoticeMoves(o.waiting, o.waiting[step.k], step.k);
    }
    hide IsDisconnect, HasDisconnect, HasNotice;
  }

  // ------------------------------------------------------------- the opening

  predicate NobodyGivesUp(steps: seq<OutboxStep>) {
    forall i :: 0 <= i < |steps| ==> !IsGiveUp(steps[i])
  }

  /** The handler waits for a slot, and its loop, which would free one, waits
      for the handler. */
  predicate Stalled(o: Outbox) {
    o.writer == Greeting && !HasFreeSlot(o) && NoneOpens(o.granted)
  }

  lemma {:induction false} StalledStays(o: Outbox, steps: seq<OutboxStep>)
    requires Stalled(o) && NobodyGivesUp(steps) && Run(o, steps).Some?
    ensures Stalled(Run(o, steps).value)
    decreases |steps|
  {
    if steps != [] {
      assert !IsGiveUp(steps[0]);
      StalledStep(o, steps[0]);
      hide Next, Stalled, IsGiveUp;
      StalledStays(Next(o, steps[0]).value, steps[1..]);
    }
  }

  lemma StalledStep(o: Outbox, step: OutboxStep)
    requires Stalled(o) && !IsGiveUp(step) && Next(o, step).Some?
    ensures Stalled(Next(o, step).value)
  {
  }

  /** As long as no other sender gives up, the handler gets past its own Ping
      exactly when a slot is free at the moment it asks. */
  lemma OpensExactlyWhen(o: Outbox, peer: Text)
    requires Valid(o) && o.writer == Opening
    ensures Next(o, Greet(peer)).Some?
    ensures HasFreeSlot(o) <==> exists steps ::
      NobodyGivesUp(steps) && Opens(Next(o, Greet(peer)).value, steps)
  {
    hide MakePing;
    var asked := Next(o, Greet(peer)).value;
    if HasFreeSlot(o) {
      var put := Put(|o.granted|);
      assert asked.granted[put.k] == OpeningSend(peer);
      assert [put][1..] == [] && Run(Next(asked, put).value, []) == Next(asked, put);
      assert Opens(asked, [put]);
    } else {
      forall steps | NobodyGivesUp(steps) && Run(asked, steps).Some?
        ensures !Opens(asked, steps)
      {
        StalledStays(asked, steps);
      }
    }
  }

  predicate Opens(o: Outbox, steps: seq<OutboxStep>) {
    Run(o, steps).Some? && Run(o, steps).value.writer == Starting
  }

  /** Every slot holds a frame that nothing will take. */
  predicate Choked(o: Outbox) {
    o.writer == Greeting && o.open && |o.queue| >= o.capacity && o.granted == []
  }

  /** Then not even senders that give up help. */
  lemma ChokedStays(o: Outbox, step: OutboxStep)
    requires Choked(o) && Next(o, step).Some?
    ensures Choked(Next(o, step).value)
    ensures Next(o, step).value.queue == o.queue && Next(o, step).value.accepted == o.accepted
  {
  }

  /** A running handler that is not choked has a step to take, or a sender with
      a slot has. */
  lemma UnchokedMoves(o: Outbox)
    requires Valid(o) && !o.writer.Exited? && o.writer != Opening && !Choked(o)
    ensures || (exists step :: IsLoopStep(step) && Next(o, step).Some?)
            || Next(o, Put(0)).Some?
  {
    hide Stops;
    if o.writer.Starting? {
      assert Next(o, OutboxStep.Start).Some?;
    } else if o.writer.Busy? {
      assert Next(o, Write).Some?;
    } else if o.writer.Idle? {
      assert Next(o, StreamEnds).Some?;
    }
  }

  /** One slot, and a frame from elsewhere that gets in before the Ping. */
  lemma ChokingSteps(frame: Frame, peer: Text) returns (asked: Outbox, put: Outbox, choked: Outbox)
    ensures Next(NewOutbox(1, Opening), Ask(Send(frame, false, false))) == Some(asked)
    ensures Next(asked, Put(0)) == Some(put)
    ensures Next(put, Greet(peer)) == Some(choked)
    ensures Choked(choked)
  {
    hide MakePing;
    asked := Next(NewOutbox(1, Opening), Ask(Send(frame, false, false))).value;
    assert asked.granted[0] == Send(frame, false, false);
    put := Next(asked, Put(0)).value;
    assert put.granted == [] && put.queue == [frame];
    choked := Next(put, Greet(peer)).value;
  }
}
