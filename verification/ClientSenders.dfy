/** `ClientSenders` (src/helpers/client_sender.rs): the map of connected peers
    that every server task shares, updated in place. */
module ClientSenders {
  import opened Results
  import opened Counters
  import opened Registries
  import opened Broadcasts
  import Wire

  /** The keys an iteration over the map visits, each once. */
  ghost predicate Enumerates(order: seq<Peer>, peers: set<Peer>) {
    NoDuplicates(order) && ToSet(order) == peers
  }

  /** A sweep part-way: `todo` is still to be visited, the rest is decided. */
  ghost predicate PartlySwept(
    before: Registry, todo: set<Peer>, timeout: nat, now: int, clients: map<Peer, Client>, metrics: MetricsSnapshot) {
    && todo <= clients.Keys <= before.clients.Keys
    && (forall p :: p in clients ==> clients[p] == before.clients[p])
    && (forall p :: p in before.clients && p !in todo ==>
          (p in clients <==> before.clients[p].sendTime + timeout >= now))
    && metrics == before.metrics.(
         connectionsActive := DecBy(before.metrics.connectionsActive, |before.clients.Keys - clients.Keys|))
  }

  lemma SweepOneMore(
    before: Registry, todo: set<Peer>, timeout: nat, now: int, clients: map<Peer, Client>, metrics: MetricsSnapshot,
    peer: Peer)
    requires PartlySwept(before, todo, timeout, now, clients, metrics) && peer in todo
    ensures var keep := clients[peer].sendTime + timeout >= now;
      PartlySwept(before, todo - {peer}, timeout, now, if keep then clients else clients - {peer},
                  if keep then metrics else metrics.(connectionsActive := Dec(metrics.connectionsActive)))
  {
    if clients[peer].sendTime + timeout < now {
      OneMoreGone(before.clients.Keys, clients, peer);
      assert (clients - {peer}).Keys == clients.Keys - {peer};
      GaugeOneMore(before.metrics, |before.clients.Keys - clients.Keys|, metrics);
    }
    hide DecBy, Dec;
  }

  lemma GaugeOneMore(before: MetricsSnapshot, gone: nat, metrics: MetricsSnapshot)
    requires metrics == before.(connectionsActive := DecBy(before.connectionsActive, gone))
    ensures metrics.(connectionsActive := Dec(metrics.connectionsActive)) ==
            before.(connectionsActive := DecBy(before.connectionsActive, gone + 1))
  {
    DecOnce(before.connectionsActive, gone);
  }

  lemma SweepBegins(before: Registry, timeout: nat, now: int)
    ensures PartlySwept(before, before.clients.Keys, timeout, now, before.clients, before.metrics)
  {
    assert before.clients.Keys - before.clients.Keys == {};
  }

  lemma OneMoreGone(keys: set<Peer>, clients: map<Peer, Client>, peer: Peer)
    requires peer in clients && clients.Keys <= keys
    ensures |keys - (clients - {peer}).Keys| == |keys - clients.Keys| + 1
  {
    assert keys - (clients - {peer}).Keys == keys - clients.Keys + {peer};
  }

  lemma SweepDone(before: Registry, timeout: nat, now: int, clients: map<Peer, Client>, metrics: MetricsSnapshot)
    requires PartlySwept(before, {}, timeout, now, clients, metrics)
    ensures clients == Fresh(before.clients, timeout, now)
    ensures forall p :: p in clients <==> p in before.clients && before.clients[p].sendTime + timeout >= now
    ensures forall p :: p in clients ==> clients[p] == before.clients[p]
    ensures metrics == before.metrics.(
      connectionsActive := DecBy(before.metrics.connectionsActive, |before.clients.Keys - clients.Keys|))
  {
  }

  class ClientSenders {
    var clients: map<Peer, Client>
    var queues: map<ChannelId, seq<Wire.Frame>>
    const metrics: Metrics
    var clientTimeoutSeconds: nat

    function State(): Registry
      reads this, metrics
    {
      Registry(clients, queues, metrics.Snapshot())
    }

    constructor (clientTimeoutSeconds: nat)
      ensures fresh(metrics) && State() == Registry(map[], map[], MetricsSnapshot(0, 0, 0, 0, 0, 0, 0))
      ensures this.clientTimeoutSeconds == clientTimeoutSeconds
    {
      this.clients, this.queues, this.clientTimeoutSeconds := map[], map[], clientTimeoutSeconds;
      metrics := new Metrics();
    }

    /** `add` with nothing in between: the previous channel is offered a
        Disconnect, which it may or may not accept in time. */
    method Add(peer: Peer, sx: ChannelId, now: int, notice: Wire.Frame, noticed: bool)
      modifies this, metrics
      ensures var replacing := peer in old(clients);
        var before := old(State());
        var told := if replacing && noticed && before.clients[peer].sx in before.queues
                    then before.(queues := before.queues[before.clients[peer].sx :=
                                   before.queues[before.clients[peer].sx] + [notice]])
                    else before;
        State() == Insert(told, peer, sx, now).(metrics := CountAdd(before.metrics, replacing))
      ensures clientTimeoutSeconds == old(clientTimeoutSeconds)
      ensures clients == old(clients)[peer := Client(sx, now)]
      ensures metrics.connectionsTotal == old(metrics.connectionsTotal) + 1
      ensures metrics.connectionsActive == old(metrics.connectionsActive) + if peer in old(clients) then 0 else 1
    {
      var previous := if peer in clients then Some(clients[peer].sx) else None;
      var replacing := previous.Some?;
      if previous.Some? && noticed && previous.value in queues {
        queues := queues[previous.value := queues[previous.value] + [notice]];
      }
      clients := clients[peer := Client(sx, now)];
      metrics.IncConnectionsTotal();
      if !replacing {
        metrics.IncConnectionsActive();
      }
    }

    method RemovePeer(peer: Peer)
      modifies this`clients, metrics
      ensures State() == Remove(old(State()), peer)
      ensures clients == old(clients) - {peer}
      ensures peer !in old(clients) ==> metrics.connectionsActive == old(metrics.connectionsActive)
      ensures peer in old(clients) && old(metrics.connectionsActive) > 0 ==>
        metrics.connectionsActive == old(metrics.connectionsActive) - 1
    {
      if peer in clients {
        clients := clients - {peer};
        metrics.DecConnectionsActive();
      }
    }

    method RefreshTime(peer: Peer, now: int)
      modifies this`clients
      ensures State() == WriteTime(old(State()), peer, now)
      ensures clients.Keys == old(clients).Keys
      ensures forall p :: p in clients ==>
        clients[p] == if p == peer then Client(old(clients)[p].sx, now) else old(clients)[p]
    {
      if peer in clients {
        clients := clients[peer := clients[peer].(sendTime := now)];
      }
    }

    /** The trait's `send`: false means the peer was not there or is now removed. */
    method Send(peer: Peer, frame: Wire.Frame, outcome: SendOutcome) returns (sent: bool)
      modifies this`clients, this`queues, metrics
      ensures State() == CompleteSend(old(State()), peer, frame, outcome)
      ensures sent <==> peer in old(clients) && outcome.Accepted?
      ensures !sent ==> peer !in clients
      ensures sent ==> clients == old(clients)[peer := Client(old(clients)[peer].sx, outcome.at)]
      ensures forall p :: p in clients && p != peer ==> p in old(clients) && clients[p] == old(clients)[p]
      ensures peer !in old(clients) ==> State() == old(State())
    {
      sent := false;
      if peer in clients {
        var sx := clients[peer].sx;
        if outcome.Accepted? {
          queues := queues[sx := (if sx in queues then queues[sx] else []) + [frame]];
          metrics.IncMessagesSent();
          sent := true;
        } else {
          metrics.IncSendErrors();
        }
      }
      if sent {
        RefreshTime(peer, outcome.at);
      } else {
        RemovePeer(peer);
      }
    }

    /** One copy to every peer of the snapshot `peers` that is still registered,
        their sends completing in the order `order`. */
    method SendToSnapshot(peers: set<Peer>, order: seq<Peer>, frame: Wire.Frame, outcomes: Outcomes)
      requires peers <= outcomes.Keys && Enumerates(order, peers)
      requires DistinctChannels(State())
      modifies this`clients, this`queues, metrics
      ensures Delivered(old(State()), peers, frame, outcomes, State())
    {
      ghost var start := State();
      var i := 0;
      assert order[..0] == [];
      while i < |order|
        invariant 0 <= i <= |order| && ToSet(order[..i]) <= outcomes.Keys
        invariant State() == Complete(start, order[..i], frame, outcomes)
      {
        assert order[i] in ToSet(order);
        assert order[..i + 1][..i] == order[..i] && ToSet(order[..i + 1]) <= ToSet(order);
        var _ := Send(order[i], frame, outcomes[order[i]]);
        i := i + 1;
      }
      assert order[..i] == order;
      CompleteDelivers(start, order, frame, outcomes);
    }

    /** The sweep's decision on one entry. */
    method SweepEntry(peer: Peer, now: int)
      requires peer in clients
      modifies this`clients, metrics
      ensures var keep := old(clients)[peer].sendTime + clientTimeoutSeconds >= now;
        && clients == (if keep then old(clients) else old(clients) - {peer})
        && metrics.Snapshot() == old(metrics.Snapshot()).(
             connectionsActive := if keep then old(metrics.connectionsActive) else Dec(old(metrics.connectionsActive)))
    {
      var keep := clients[peer].sendTime + clientTimeoutSeconds >= now;
      if !keep {
        metrics.DecConnectionsActive();
        clients := clients - {peer};
      }
    }

    /** The timeout sweep: keeps exactly the entries that are not stale and
        lowers the gauge once for each of the others. */
    method CheckClientSendTime(now: int)
      modifies this`clients, metrics
      ensures clients == Fresh(old(clients), clientTimeoutSeconds, now)
      ensures forall p :: p in clients <==> p in old(clients) && old(clients)[p].sendTime + clientTimeoutSeconds >= now
      ensures forall p :: p in clients ==> clients[p] == old(clients)[p]
      ensures metrics.Snapshot() == old(metrics.Snapshot()).(
        connectionsActive := DecBy(old(metrics.connectionsActive), |old(clients).Keys - clients.Keys|))
    {
      ghost var before := State();
      var todo := clients.Keys;
      SweepBegins(before, clientTimeoutSeconds, now);
      hide PartlySwept, Fresh, DecBy;
      while todo != {}
        invariant todo <= clients.Keys
        invariant PartlySwept(before, todo, clientTimeoutSeconds, now, clients, metrics.Snapshot())
        decreases |todo|
      {
        var peer :| peer in todo;
        SweepOneMore(before, todo, clientTimeoutSeconds, now, clients, metrics.Snapshot(), peer);
        todo := todo - {peer};
        SweepEntry(peer, now);
      }
      SweepDone(before, clientTimeoutSeconds, now, clients, metrics.Snapshot());
    }

    /** `peers`, `peers_in` and `peers_except` differ only in the filter. */
    method PeersWhere(keep: Peer -> bool) returns (r: seq<Peer>)
      ensures Enumerates(r, set p | p in clients && keep(p))
    {
      r := [];
      var todo := clients.Keys;
      while todo != {}
        invariant todo <= clients.Keys && NoDuplicates(r)
        invariant forall p :: p in ToSet(r) <==> p in clients && p !in todo && keep(p)
        decreases |todo|
      {
        var peer :| peer in todo;
        todo := todo - {peer};
        if keep(peer) {
          assert ToSet(r + [peer]) == ToSet(r) + {peer};
          r := r + [peer];
        }
      }
    }

    method Peers() returns (r: seq<Peer>)
      ensures Enumerates(r, clients.Keys)
    {
      r := PeersWhere(_ => true);
      assert (set p | p in clients) == clients.Keys;
    }

    method PeersIn(target: set<Peer>) returns (r: seq<Peer>)
      ensures Enumerates(r, clients.Keys * target)
    {
      r := PeersWhere(p => p in target);
      assert (set p | p in clients && p in target) == clients.Keys * target;
    }

    method PeersExcept(valid: set<Peer>) returns (r: seq<Peer>)
      ensures Enumerates(r, clients.Keys - valid)
    {
      r := PeersWhere(p => p !in valid);
      assert (set p | p in clients && p !in valid) == clients.Keys - valid;
    }
  }
}
