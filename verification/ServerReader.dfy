/** The server's reader task for one connection
    (src/helpers/internal_server.rs:527-586, 742-796): the first message names
    the client, the middleware chain filters the rest. */
module ServerReaders {
  import opened Results
  import opened Wire

  type PeerId = seq<byte>

  datatype Options = Options(usePing: bool, proxyPing: int)

  /** The middleware chain as an oracle: whether middleware i accepts the
      connection, and whether it lets message k continue. */
  datatype Chain = Chain(count: nat, accepts: nat -> bool, continues: (nat, nat) -> bool)

  /** What the task does, in order. */
  datatype Event =
    | Registered(id: PeerId)
    | PongSent(peer: PeerId)
    | OnConnect(mw: nat)
    | OnMessage(mw: nat, message: nat)
    | Forwarded(data: Data, id: PeerId)
    | OnDisconnect(mw: nat)
    | DisconnectQueued

  // ------------------------------------------------------------ what is meant

  /** A Ping that the server answers itself. */
  predicate IsAnswered(frame: Frame, usePing: bool) {
    var data := GetDataSchema(frame);
    usePing && data.Some? && data.value.category == Code(Ping) && PingPeer(data.value.datas).Some?
  }

  /** The first Disconnect at or after `from`, or the end of the stream. */
  function Cut(frames: seq<Frame>, from: nat): (cut: nat)
    requires from <= |frames|
    ensures from <= cut <= |frames| && (cut < |frames| ==> IsDisconnect(frames[cut]))
    ensures forall k :: from <= k < cut ==> !IsDisconnect(frames[k])
    decreases |frames| - from
  {
    if from == |frames| || IsDisconnect(frames[from]) then from else Cut(frames, from + 1)
  }

  /** How many middlewares see message k: all up to the first that stops it. */
  function Seen(chain: Chain, k: nat, i: nat): (n: nat)
    requires i <= chain.count
    ensures i <= n <= chain.count && forall j :: i <= j < n - 1 ==> chain.continues(k, j)
    ensures n == chain.count || (n > i && !chain.continues(k, n - 1))
    decreases chain.count - i
  {
    if i == chain.count then i else if chain.continues(k, i) then Seen(chain, k, i + 1) else i + 1
  }

  predicate Continues(chain: Chain, k: nat) {
    forall i :: 0 <= i < chain.count ==> chain.continues(k, i)
  }

  predicate AllAccept(chain: Chain) {
    forall i :: 0 <= i < chain.count ==> chain.accepts(i)
  }

  function Messages(k: nat, n: nat): seq<Event> {
    seq(n, (i: nat) => OnMessage(i, k))
  }

  function Disconnects(n: nat): seq<Event> {
    seq(n, (i: nat) => OnDisconnect(i))
  }

  /** How many middlewares are asked about the connection. */
  function Asked(chain: Chain, i: nat): (n: nat)
    requires i <= chain.count
    ensures i <= n <= chain.count && forall j :: i <= j < n - 1 ==> chain.accepts(j)
    ensures n == chain.count || (n > i && !chain.accepts(n - 1))
    decreases chain.count - i
  {
    if i == chain.count then i else if chain.accepts(i) then Asked(chain, i + 1) else i + 1
  }

  function Connects(n: nat): seq<Event> {
    seq(n, (i: nat) => OnConnect(i))
  }

  /** One message after the first, other than a Disconnect. */
  function FrameEvents(frame: Frame, k: nat, id: PeerId, options: Options, chain: Chain): seq<Event> {
    if GetDataSchema(frame).None? then []
    else
      var data := GetDataSchema(frame).value;
      if IsAnswered(frame, options.usePing) then [PongSent(PingPeer(data.datas).value)]
      else Messages(k, Seen(chain, k, 0)) + if Continues(chain, k) then [Forwarded(data, id)] else []
  }

  function BodyEvents(frames: seq<Frame>, n: nat, id: PeerId, options: Options, chain: Chain): seq<Event>
    requires n <= |frames|
  {
    if n <= 1 then []
    else BodyEvents(frames, n - 1, id, options, chain) + FrameEvents(frames[n - 1], n - 1, id, options, chain)
  }

  /** The client named by the first message and what that message causes. */
  function Identify(frames: seq<Frame>, options: Options): (Option<PeerId>, seq<Event>) {
    if frames == [] || GetDataSchema(frames[0]).None? then (None, [])
    else
      var data := GetDataSchema(frames[0]).value;
      var peer := PingPeer(data.datas);
      var proxied := options.proxyPing > 0;
      var category := if proxied then options.proxyPing % 0x1_0000 else data.category;
      if peer.None? then (None, [])
      else if data.category == Code(Ping) then
        (peer, [Registered(peer.value),
                if options.usePing then PongSent(peer.value)
                else Forwarded(data.(category := category), peer.value)])
      else if proxied && data.category == category then (peer, [Registered(peer.value), Forwarded(data, peer.value)])
      else (None, [])
  }

  /** Between the first message and the end: ask the chain and, if it accepts,
      serve up to the first Disconnect and tell the chain. */
  function ServedEvents(frames: seq<Frame>, id: Option<PeerId>, options: Options, chain: Chain): seq<Event> {
    if id.None? || frames == [] then []
    else
      Connects(Asked(chain, 0))
      + if !AllAccept(chain) then []
        else BodyEvents(frames, Cut(frames, 1), id.value, options, chain) + Disconnects(chain.count)
  }

  /** The whole task; it queues a Disconnect in every case. */
  function SessionEvents(frames: seq<Frame>, options: Options, chain: Chain): seq<Event> {
    var (id, first) := Identify(frames, options);
    first + ServedEvents(frames, id, options, chain) + [DisconnectQueued]
  }

  /** The payload of a first message that can name its client: a Ping, or a
      message of the category that stands in for Pings. */
  predicate IsIntroduction(data: Data, options: Options) {
    data.category == Code(Ping) || (options.proxyPing > 0 && data.category == options.proxyPing % 0x1_0000)
  }

  /** A client is named exactly when the first frame introduces one with a
      decodable Ping payload. It is then registered first, and one more thing
      follows: a pong to it, or its message for the application, under the
      proxied category if there is one; a message that was not a Ping is never
      answered. */
  lemma IdentifyExactly(frames: seq<Frame>, options: Options, id: PeerId)
    ensures var (named, events) := Identify(frames, options);
      && (named == Some(id) <==>
            && frames != [] && GetDataSchema(frames[0]).Some?
            && IsIntroduction(GetDataSchema(frames[0]).value, options)
            && PingPeer(GetDataSchema(frames[0]).value.datas) == Some(id))
      && (named.None? ==> events == [])
      && (named == Some(id) ==>
            var data := GetDataSchema(frames[0]).value;
            && |events| == 2 && events[0] == Registered(id)
            && (events[1] == PongSent(id) <==> options.usePing && data.category == Code(Ping))
            && (events[1] != PongSent(id) ==>
                  && events[1].Forwarded? && events[1].id == id && events[1].data.datas == data.datas
                  && events[1].data.category == if options.proxyPing > 0 then options.proxyPing % 0x1_0000 else data.category))
  {
    hide GetDataSchema, PingPeer;
  }

  // --------------------------------------------------------------- the code

  method AskChain(chain: Chain) returns (connected: bool, events: seq<Event>)
    ensures connected <==> AllAccept(chain)
    ensures connected <==> forall i :: 0 <= i < chain.count ==> chain.accepts(i)
    ensures events == Connects(Asked(chain, 0))
  {
    events, connected := [], true;
    var i := 0;
    while i < chain.count
      invariant 0 <= i <= chain.count && events == Connects(i)
      invariant forall j :: 0 <= j < i ==> chain.accepts(j)
      invariant Asked(chain, i) == Asked(chain, 0)
    {
      events := events + [OnConnect(i)];
      assert events == Connects(i + 1);
      if !chain.accepts(i) {
        connected := false;
        return;
      }
      i := i + 1;
    }
  }

  method PassThroughChain(chain: Chain, k: nat) returns (shouldForward: bool, events: seq<Event>)
    ensures shouldForward <==> Continues(chain, k)
    ensures shouldForward <==> forall i :: 0 <= i < chain.count ==> chain.continues(k, i)
    ensures events == Messages(k, Seen(chain, k, 0))
  {
    events, shouldForward := [], true;
    var i := 0;
    while i < chain.count
      invariant 0 <= i <= chain.count && events == Messages(k, i)
      invariant forall j :: 0 <= j < i ==> chain.continues(k, j)
      invariant Seen(chain, k, i) == Seen(chain, k, 0)
    {
      events := events + [OnMessage(i, k)];
      assert events == Messages(k, i + 1);
      if !chain.continues(k, i) {
        shouldForward := false;
        return;
      }
      i := i + 1;
    }
  }

  method GetIdFromFirstMessage(frames: seq<Frame>, options: Options) returns (id: Option<PeerId>, events: seq<Event>)
    ensures (id, events) == Identify(frames, options)
  {
    id, events := None, [];
    if frames == [] { return; }
    var schema := GetDataSchema(frames[0]);
    if schema.None? { return; }
    var data := schema.value;
    if data.category == Code(Ping) {
      var peer := PingPeer(data.datas);
      if peer.Some? {
        id := peer;
        if options.usePing {
          events := [Registered(peer.value), PongSent(peer.value)];
        } else {
          if options.proxyPing > 0 {
            data := data.(category := options.proxyPing % 0x1_0000);
          }
          events := [Registered(peer.value), Forwarded(data, peer.value)];
        }
      }
    } else if options.proxyPing > 0 && data.category == options.proxyPing % 0x1_0000 {
      var peer := PingPeer(data.datas);
      if peer.Some? {
        data := data.(category := options.proxyPing % 0x1_0000);
        id, events := peer, [Registered(peer.value), Forwarded(data, peer.value)];
      }
    }
  }

  /** The messages after the first, up to a Disconnect or the end. */
  method ServeMessages(frames: seq<Frame>, id: PeerId, options: Options, chain: Chain) returns (events: seq<Event>)
    requires frames != []
    ensures events == BodyEvents(frames, Cut(frames, 1), id, options, chain)
  {
    hide Seen, Continues, GetDataSchema, PingPeer;
    events := [];
    var k := 1;
    while k < |frames|
      invariant 1 <= k <= |frames|
      invariant events == BodyEvents(frames, k, id, options, chain)
      invariant Cut(frames, 1) == Cut(frames, k)
    {
      var value := frames[k];
      var schema := GetDataSchema(value);
      if schema.None? {
        k := k + 1;
        continue;
      }
      var data := schema.value;
      if data.category == Code(Ping) && options.usePing {
        var peer := PingPeer(data.datas);
        if peer.Some? {
          events, k := events + [PongSent(peer.value)], k + 1;
          continue;
        }
      }
      if data.category == Code(Disconnect) {
        return;
      }
      var shouldForward, asked := PassThroughChain(chain, k);
      events := events + (asked + if shouldForward then [Forwarded(data, id)] else []);
      k := k + 1;
    }
  }

  method TellChain(chain: Chain) returns (events: seq<Event>)
    ensures events == Disconnects(chain.count)
  {
    events := [];
    var i := 0;
    while i < chain.count
      invariant 0 <= i <= chain.count && events == Disconnects(i)
    {
      events := events + [OnDisconnect(i)];
      i := i + 1;
    }
  }

  /** `frames` is the stream up to its end or first error. */
  method ReadLoop(frames: seq<Frame>, options: Options, chain: Chain) returns (events: seq<Event>)
    ensures events == SessionEvents(frames, options, chain)
  {
    hide BodyEvents, Cut, Asked, AllAccept;
    var id, first := GetIdFromFirstMessage(frames, options);
    var served := [];
    if id.Some? {
      var connected, asked := AskChain(chain);
      served := asked;
      if connected {
        var body := ServeMessages(frames, id.value, options, chain);
        var left := TellChain(chain);
        served := asked + (body + left);
      }
    }
    events := first + served + [DisconnectQueued];
  }

  // ---------------------------------------------------------------- meaning

  predicate IsOutward(e: Event) {
    e.Forwarded? || e.PongSent?
  }

  /** The messages handed to the application and the pongs sent, in order. */
  function Delivered(events: seq<Event>): seq<Event> {
    if events == [] then []
    else (if IsOutward(events[0]) then [events[0]] else []) + Delivered(events[1..])
  }

  /** What one message should lead to: with pings on, a pong for a decodable
      Ping; else itself, if it is long enough and passes the chain. */
  function WantedFor(f: Frame, k: nat, id: PeerId, usePing: bool, chain: Chain): seq<Event> {
    var data := GetDataSchema(f);
    if data.None? then []
    else if usePing && data.value.category == Code(Ping) && PingPeer(data.value.datas).Some?
    then [PongSent(PingPeer(data.value.datas).value)]
    else if Continues(chain, k) then [Forwarded(data.value, id)]
    else []
  }

  /** The messages after the first and before message n, one after another. */
  function Wanted(frames: seq<Frame>, n: nat, id: PeerId, usePing: bool, chain: Chain): seq<Event>
    requires n <= |frames|
  {
    if n <= 1 then []
    else Wanted(frames, n - 1, id, usePing, chain) + WantedFor(frames[n - 1], n - 1, id, usePing, chain)
  }

  lemma {:induction false} DeliveredAppend(a: seq<Event>, b: seq<Event>)
    ensures Delivered(a + b) == Delivered(a) + Delivered(b)
  {
    hide IsOutward;
    if a == [] {
      assert a + b == b;
    } else {
      var first := if IsOutward(a[0]) then [a[0]] else [];
      assert (a + b)[0] == a[0] && (a + b)[1..] == a[1..] + b;
      DeliveredAppend(a[1..], b);
      assert Delivered(a + b) == first + Delivered(a[1..] + b) && Delivered(a) == first + Delivered(a[1..]);
    }
  }

  lemma {:induction false} NothingDelivered(events: seq<Event>)
    requires forall i :: 0 <= i < |events| ==> !IsOutward(events[i])
    ensures Delivered(events) == []
  {
    if events != [] {
      NothingDelivered(events[1..]);
    }
  }

  lemma {:induction false} AllDelivered(events: seq<Event>)
    requires forall i :: 0 <= i < |events| ==> IsOutward(events[i])
    ensures Delivered(events) == events
  {
    if events != [] {
      AllDelivered(events[1..]);
    }
  }

  lemma FrameDelivers(f: Frame, k: nat, id: PeerId, options: Options, chain: Chain)
    ensures Delivered(FrameEvents(f, k, id, options, chain)) == WantedFor(f, k, id, options.usePing, chain)
  {
    hide Seen, Continues;
    AllDelivered(WantedFor(f, k, id, options.usePing, chain));
    if GetDataSchema(f).Some? && !IsAnswered(f, options.usePing) {
      var asked := Messages(k, Seen(chain, k, 0));
      NothingDelivered(asked);
      DeliveredAppend(asked, WantedFor(f, k, id, options.usePing, chain));
    }
  }

  lemma {:induction false} BodyDelivers(frames: seq<Frame>, n: nat, id: PeerId, options: Options, chain: Chain)
    requires n <= |frames|
    ensures Delivered(BodyEvents(frames, n, id, options, chain)) == Wanted(frames, n, id, options.usePing, chain)
  {
    hide FrameEvents, WantedFor;
    if n > 1 {
      BodyDelivers(frames, n - 1, id, options, chain);
      FrameDelivers(frames[n - 1], n - 1, id, options, chain);
      DeliveredAppend(BodyEvents(frames, n - 1, id, options, chain), FrameEvents(frames[n - 1], n - 1, id, options, chain));
    }
  }

  /** For every stream the application and the client get, in order, what the
      first message leads to and then exactly what the others should. */
  lemma SessionDeliversWanted(frames: seq<Frame>, options: Options, chain: Chain)
    ensures var (id, first) := Identify(frames, options);
      Delivered(SessionEvents(frames, options, chain)) ==
        Delivered(first) + if id.Some? && AllAccept(chain) then Wanted(frames, Cut(frames, 1), id.value, options.usePing, chain)
                           else []
  {
    var (id, first) := Identify(frames, options);
    assert id.Some? ==> frames != [];
    var served := ServedEvents(frames, id, options, chain);
    ServedDelivers(frames, id, options, chain);
    hide Identify, ServedEvents, Wanted, AllAccept, Cut;
    NothingDelivered([DisconnectQueued]);
    DeliveredAppend(first, served);
    DeliveredAppend(first + served, [DisconnectQueued]);
    hide Delivered;
  }

  lemma ServedDelivers(frames: seq<Frame>, id: Option<PeerId>, options: Options, chain: Chain)
    requires id.Some? ==> frames != []
    ensures Delivered(ServedEvents(frames, id, options, chain)) ==
            if id.Some? && AllAccept(chain) then Wanted(frames, Cut(frames, 1), id.value, options.usePing, chain) else []
  {
    hide BodyEvents, Cut, Asked, AllAccept, Wanted;
    NothingDelivered([]);
    if id.Some? {
      var asked, told := Connects(Asked(chain, 0)), Disconnects(chain.count);
      var body := BodyEvents(frames, Cut(frames, 1), id.value, options, chain);
      NothingDelivered(asked);
      NothingDelivered(told);
      BodyDelivers(frames, Cut(frames, 1), id.value, options, chain);
      DeliveredAppend(body, told);
      DeliveredAppend(asked, if AllAccept(chain) then body + told else []);
      hide Delivered;
    }
  }

  /** Message k's part of what a session leads to. */
  lemma {:induction false} BodyHas(frames: seq<Frame>, n: nat, k: nat, id: PeerId, options: Options, chain: Chain, e: Event)
    requires 1 <= k < n <= |frames| && e in FrameEvents(frames[k], k, id, options, chain)
    ensures e in BodyEvents(frames, n, id, options, chain)
    decreases n
  {
    hide FrameEvents;
    if k < n - 1 {
      BodyHas(frames, n - 1, k, id, options, chain, e);
    }
  }

  /** A message after the first is answered exactly when pings are on and it is
      a decodable Ping, and forwarded, unchanged, exactly when it is not
      answered, carries a category, and every middleware lets it continue. */
  lemma AnsweredExactlyWhen(frame: Frame, k: nat, id: PeerId, options: Options, chain: Chain)
    ensures var events, data := FrameEvents(frame, k, id, options, chain), GetDataSchema(frame);
      var ping := data.Some? && data.value.category == Code(Ping) && PingPeer(data.value.datas).Some?;
      && ((exists peer :: PongSent(peer) in events) <==> options.usePing && ping)
      && (options.usePing && ping ==> events == [PongSent(PingPeer(data.value.datas).value)])
      && ((exists d, p :: Forwarded(d, p) in events) <==>
            data.Some? && !(options.usePing && ping) && forall i :: 0 <= i < chain.count ==> chain.continues(k, i))
      && (forall d, p :: Forwarded(d, p) in events ==> Some(d) == data && p == id)
  {
    hide Seen, GetDataSchema, PingPeer;
    var events := FrameEvents(frame, k, id, options, chain);
    if GetDataSchema(frame).Some? {
      var data := GetDataSchema(frame).value;
      if options.usePing && data.category == Code(Ping) && PingPeer(data.datas).Some? {
        assert PongSent(PingPeer(data.datas).value) in events;
      } else if Continues(chain, k) {
        assert Forwarded(data, id) in events;
      }
    }
  }

  lemma {:induction false} BodyHasNoPong(frames: seq<Frame>, n: nat, id: PeerId, options: Options, chain: Chain)
    requires n <= |frames| && !options.usePing
    ensures forall e :: e in BodyEvents(frames, n, id, options, chain) ==> !e.PongSent?
  {
    hide FrameEvents;
    if n > 1 {
      BodyHasNoPong(frames, n - 1, id, options, chain);
      AnsweredExactlyWhen(frames[n - 1], n - 1, id, options, chain);
    }
  }

  /** With pings off the server never sends a pong, and every message after the
      first that comes before a Disconnect and passes the chain reaches the
      application, Pings included. */
  lemma PingsOffForwardsPings(frames: seq<Frame>, options: Options, chain: Chain, k: nat)
    requires !options.usePing
    ensures forall e :: e in SessionEvents(frames, options, chain) ==> !e.PongSent?
    ensures var id := Identify(frames, options).0;
      id.Some? && AllAccept(chain) && 1 <= k < |frames| && k < Cut(frames, 1)
      && GetDataSchema(frames[k]).Some? && Continues(chain, k)
      ==> Forwarded(GetDataSchema(frames[k]).value, id.value) in SessionEvents(frames, options, chain)
  {
    SessionSendsNoPong(frames, options, chain);
    IdentifyIsOpen(frames, options);
    var id := Identify(frames, options).0;
    hide Identify, GetDataSchema, Cut, Asked, PingPeer;
    if id.Some? && AllAccept(chain) && 1 <= k < |frames| && k < Cut(frames, 1)
       && GetDataSchema(frames[k]).Some? && Continues(chain, k) {
      var data := GetDataSchema(frames[k]).value;
      AnsweredExactlyWhen(frames[k], k, id.value, options, chain);
      assert Forwarded(data, id.value) in FrameEvents(frames[k], k, id.value, options, chain);
      hide FrameEvents, Continues;
      BodyHas(frames, Cut(frames, 1), k, id.value, options, chain, Forwarded(data, id.value));
      hide BodyEvents, AllAccept;
    }
  }

  lemma SessionSendsNoPong(frames: seq<Frame>, options: Options, chain: Chain)
    requires !options.usePing
    ensures forall e :: e in SessionEvents(frames, options, chain) ==> !e.PongSent?
  {
    IdentifySendsNoPong(frames, options);
    IdentifyIsOpen(frames, options);
    var id := Identify(frames, options).0;
    hide Identify, Cut, Asked;
    if id.Some? {
      BodyHasNoPong(frames, Cut(frames, 1), id.value, options, chain);
    }
    hide BodyEvents, AllAccept;
  }

  lemma IdentifySendsNoPong(frames: seq<Frame>, options: Options)
    requires !options.usePing
    ensures forall e :: e in Identify(frames, options).1 ==> !e.PongSent?
  {
    hide GetDataSchema, PingPeer;
  }

  /** Neither the opening nor the serving of a session closes it. */
  lemma {:induction false} BodyIsOpen(frames: seq<Frame>, n: nat, id: PeerId, options: Options, chain: Chain)
    requires n <= |frames|
    ensures StaysOpen(BodyEvents(frames, n, id, options, chain))
  {
    if n > 1 {
      BodyIsOpen(frames, n - 1, id, options, chain);
    }
  }

  lemma {:induction false} DisconnectsOnce(n: nat, i: nat)
    ensures multiset(Disconnects(n))[OnDisconnect(i)] == if i < n then 1 else 0
  {
    if n > 0 {
      DisconnectsOnce(n - 1, i);
      assert Disconnects(n) == Disconnects(n - 1) + [OnDisconnect(n - 1)];
    }
  }

  /** Each middleware hears of the disconnect once if all of them accepted the
      connection and never otherwise; a Disconnect is queued once, last, always. */
  lemma SessionCloses(frames: seq<Frame>, options: Options, chain: Chain, i: nat)
    ensures var events := SessionEvents(frames, options, chain);
      && multiset(events)[OnDisconnect(i)] ==
           (if Identify(frames, options).0.Some? && AllAccept(chain) && i < chain.count then 1 else 0)
      && multiset(events)[DisconnectQueued] == 1
      && events[|events| - 1] == DisconnectQueued
  {
    var (id, first) := Identify(frames, options);
    IdentifyIsOpen(frames, options);
    var served := ServedEvents(frames, id, options, chain);
    ServedCounts(frames, id, options, chain, i);
    hide Identify, ServedEvents, AllAccept;
    Counts(first, OnDisconnect(i), served);
    Counts(first, DisconnectQueued, served);
    OneMore(first + served, OnDisconnect(i), DisconnectQueued);
    OneMore(first + served, DisconnectQueued, DisconnectQueued);
  }

  lemma IdentifyIsOpen(frames: seq<Frame>, options: Options)
    ensures var (id, first) := Identify(frames, options);
      && (id.Some? ==> frames != [])
      && StaysOpen(first)
  {
    hide PingPeer, GetDataSchema;
  }

  predicate StaysOpen(events: seq<Event>) {
    forall e :: e in events ==> !e.OnDisconnect? && !e.DisconnectQueued?
  }

  lemma OneMore(events: seq<Event>, e: Event, last: Event)
    ensures multiset(events + [last])[e] == multiset(events)[e] + if e == last then 1 else 0
  {
  }

  /** An event that is not in `plain` occurs in `plain + rest` as often as in `rest`. */
  lemma Counts(plain: seq<Event>, e: Event, rest: seq<Event>)
    requires e !in plain
    ensures multiset(plain + rest)[e] == multiset(rest)[e]
  {
    assert e !in multiset(plain);
  }

  lemma ServedCounts(frames: seq<Frame>, id: Option<PeerId>, options: Options, chain: Chain, i: nat)
    requires id.Some? ==> frames != []
    ensures var served := ServedEvents(frames, id, options, chain);
      && multiset(served)[OnDisconnect(i)] == (if id.Some? && AllAccept(chain) && i < chain.count then 1 else 0)
      && multiset(served)[DisconnectQueued] == 0
  {
    hide BodyEvents, Cut, Asked, AllAccept;
    if id.Some? {
      var asked := Connects(Asked(chain, 0));
      var body, told := BodyEvents(frames, Cut(frames, 1), id.value, options, chain), Disconnects(chain.count);
      BodyIsOpen(frames, Cut(frames, 1), id.value, options, chain);
      DisconnectsOnce(chain.count, i);
      Counts(asked, OnDisconnect(i), if AllAccept(chain) then body + told else []);
      Counts(body, OnDisconnect(i), told);
      assert DisconnectQueued !in ServedEvents(frames, id, options, chain);
    }
  }
}
