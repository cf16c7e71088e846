/** `send_all` and its relatives: one `send` per peer of a snapshot, joined in
    whatever order they complete (src/helpers/client_sender.rs:538-567). */
module Broadcasts {
  import opened Counters
  import opened Registries
  import Wire

  type Outcomes = map<Peer, SendOutcome>

  /** Every registered peer has a channel of its own. */
  ghost predicate DistinctChannels(r: Registry) {
    && (forall p :: p in r.clients ==> r.clients[p].sx in r.queues)
    && (forall p, q :: p in r.clients && q in r.clients && r.clients[p].sx == r.clients[q].sx ==> p == q)
  }

  predicate NoDuplicates(order: seq<Peer>) {
    forall i, j :: 0 <= i < j < |order| ==> order[i] != order[j]
  }

  function ToSet(order: seq<Peer>): set<Peer> {
    set p | p in order
  }

  function AcceptedOf(peers: set<Peer>, outcomes: Outcomes): set<Peer> {
    set p | p in peers && p in outcomes && outcomes[p].Accepted?
  }

  function FailedOf(peers: set<Peer>, outcomes: Outcomes): set<Peer> {
    set p | p in peers && p in outcomes && outcomes[p].Failed?
  }

  /** The sends completing one after another. */
  function Complete(r: Registry, order: seq<Peer>, frame: Wire.Frame, outcomes: Outcomes): Registry
    requires ToSet(order) <= outcomes.Keys
  {
    if order == [] then r
    else
      var last := order[|order| - 1];
      assert last in ToSet(order) && ToSet(order[..|order| - 1]) <= ToSet(order);
      CompleteSend(Complete(r, order[..|order| - 1], frame, outcomes), last, frame, outcomes[last])
  }

  /** The peers of a snapshot that are still registered when looked up. */
  function Found(r: Registry, peers: set<Peer>): set<Peer> {
    peers * r.clients.Keys
  }

  /** A refreshed time for each found peer that took its message, removal for
      each other found peer, and no other entry touched. */
  ghost predicate ClientsAfter(r: Registry, found: set<Peer>, outcomes: Outcomes, after: Registry)
    requires found <= outcomes.Keys && found <= r.clients.Keys
  {
    && after.clients.Keys == r.clients.Keys - FailedOf(found, outcomes)
    && (forall p :: p in after.clients ==>
          after.clients[p] == if p in found then r.clients[p].(sendTime := outcomes[p].at) else r.clients[p])
  }

  /** Exactly one copy for each found peer that took its message. */
  ghost predicate QueuesAfter(r: Registry, found: set<Peer>, frame: Wire.Frame, outcomes: Outcomes, after: Registry)
    requires found <= outcomes.Keys && found <= r.clients.Keys
  {
    && after.queues.Keys == r.queues.Keys
    && (forall p :: p in r.clients && r.clients[p].sx in r.queues ==>
          after.queues[r.clients[p].sx] ==
            r.queues[r.clients[p].sx] + if p in AcceptedOf(found, outcomes) then [frame] else [])
    && (forall c :: c in r.queues && (forall p :: p in r.clients ==> r.clients[p].sx != c) ==>
          after.queues[c] == r.queues[c])
  }

  predicate MetricsAfter(r: Registry, found: set<Peer>, outcomes: Outcomes, after: Registry) {
    after.metrics == r.metrics.(
      messagesSent := r.metrics.messagesSent + |AcceptedOf(found, outcomes)|,
      sendErrors := r.metrics.sendErrors + |FailedOf(found, outcomes)|,
      connectionsActive := DecBy(r.metrics.connectionsActive, |FailedOf(found, outcomes)|))
  }

  /** What a whole broadcast comes to, whichever order its sends completed in:
      a snapshot peer that is gone by its lookup changes nothing. */
  ghost predicate Delivered(r: Registry, peers: set<Peer>, frame: Wire.Frame, outcomes: Outcomes, after: Registry)
    requires peers <= outcomes.Keys
  {
    && ClientsAfter(r, Found(r, peers), outcomes, after)
    && QueuesAfter(r, Found(r, peers), frame, outcomes, after)
    && MetricsAfter(r, Found(r, peers), outcomes, after)
  }

  lemma {:induction false} CompleteDelivers(r: Registry, order: seq<Peer>, frame: Wire.Frame, outcomes: Outcomes)
    requires NoDuplicates(order) && ToSet(order) <= outcomes.Keys && DistinctChannels(r)
    ensures Delivered(r, ToSet(order), frame, outcomes, Complete(r, order, frame, outcomes))
  {
    hide ClientsAfter, QueuesAfter, MetricsAfter, CompleteSend, DistinctChannels, Found;
    if order == [] {
      assert ToSet(order) == {};
      NobodyToDeliver(r, frame, outcomes);
    } else {
      var n := |order| - 1;
      var front, last := order[..n], order[n];
      assert ToSet(order) == ToSet(front) + {last} && last !in ToSet(front);
      CompleteDelivers(r, front, frame, outcomes);
      FoundOneMore(r, ToSet(front), last);
      if last in r.clients {
        DeliverOneMore(r, Found(r, ToSet(front)), last, frame, outcomes, Complete(r, front, frame, outcomes));
      } else {
        AbsentPeerChangesNothing(r, Found(r, ToSet(front)), last, frame, outcomes, Complete(r, front, frame, outcomes));
      }
    }
  }

  lemma NobodyToDeliver(r: Registry, frame: Wire.Frame, outcomes: Outcomes)
    ensures Delivered(r, {}, frame, outcomes, r)
  {
    assert AcceptedOf({}, outcomes) == {} && FailedOf({}, outcomes) == {};
  }

  lemma FoundOneMore(r: Registry, peers: set<Peer>, last: Peer)
    requires last !in peers
    ensures last !in Found(r, peers) && Found(r, peers) <= peers && Found(r, peers) <= r.clients.Keys
    ensures Found(r, peers + {last}) == if last in r.clients then Found(r, peers) + {last} else Found(r, peers)
  {
  }

  lemma AbsentPeerChangesNothing(
    r: Registry, found: set<Peer>, last: Peer, frame: Wire.Frame, outcomes: Outcomes, mid: Registry)
    requires found <= outcomes.Keys && found <= r.clients.Keys && last in outcomes && last !in r.clients
    requires ClientsAfter(r, found, outcomes, mid)
    ensures CompleteSend(mid, last, frame, outcomes[last]) == mid
  {
  }

  lemma DeliverOneMore(r: Registry, found: set<Peer>, last: Peer, frame: Wire.Frame, outcomes: Outcomes, mid: Registry)
    requires found + {last} <= outcomes.Keys && found + {last} <= r.clients.Keys && last !in found
    requires DistinctChannels(r) && ClientsAfter(r, found, outcomes, mid)
    requires QueuesAfter(r, found, frame, outcomes, mid) && MetricsAfter(r, found, outcomes, mid)
    ensures var after := CompleteSend(mid, last, frame, outcomes[last]);
      && ClientsAfter(r, found + {last}, outcomes, after)
      && QueuesAfter(r, found + {last}, frame, outcomes, after)
      && MetricsAfter(r, found + {last}, outcomes, after)
  {
    ClientsOneMore(r, found, last, frame, outcomes, mid);
    QueuesOneMore(r, found, last, frame, outcomes, mid);
    MetricsOneMore(r, found, last, frame, outcomes, mid);
    hide CompleteSend, ClientsAfter, QueuesAfter, MetricsAfter;
  }

  lemma ClientsOneMore(r: Registry, found: set<Peer>, last: Peer, frame: Wire.Frame, outcomes: Outcomes, mid: Registry)
    requires found + {last} <= outcomes.Keys && found + {last} <= r.clients.Keys && last !in found
    requires ClientsAfter(r, found, outcomes, mid)
    ensures last in mid.clients && mid.clients[last] == r.clients[last]
    ensures ClientsAfter(r, found + {last}, outcomes, CompleteSend(mid, last, frame, outcomes[last]))
  {
    OneMore(found, last, outcomes);
    assert last !in FailedOf(found, outcomes);
    hide FailedOf;
  }

  lemma QueuesOneMore(r: Registry, found: set<Peer>, last: Peer, frame: Wire.Frame, outcomes: Outcomes, mid: Registry)
    requires found + {last} <= outcomes.Keys && found + {last} <= r.clients.Keys && last !in found
    requires last in mid.clients && mid.clients[last] == r.clients[last]
    requires DistinctChannels(r) && QueuesAfter(r, found, frame, outcomes, mid)
    ensures QueuesAfter(r, found + {last}, frame, outcomes, CompleteSend(mid, last, frame, outcomes[last]))
  {
    OneMore(found, last, outcomes);
    assert last !in AcceptedOf(found, outcomes);
    hide AcceptedOf, FailedOf;
    var after, sx := CompleteSend(mid, last, frame, outcomes[last]), r.clients[last].sx;
    assert after.queues == if outcomes[last].Accepted? then mid.queues[sx := mid.queues[sx] + [frame]] else mid.queues;
    assert mid.queues[sx] == r.queues[sx] + [];
    hide CompleteSend;
  }

  lemma MetricsOneMore(r: Registry, found: set<Peer>, last: Peer, frame: Wire.Frame, outcomes: Outcomes, mid: Registry)
    requires last in outcomes && last !in found && last in mid.clients
    requires MetricsAfter(r, found, outcomes, mid)
    ensures MetricsAfter(r, found + {last}, outcomes, CompleteSend(mid, last, frame, outcomes[last]))
  {
    OneMore(found, last, outcomes);
    assert last !in FailedOf(found, outcomes) && last !in AcceptedOf(found, outcomes);
    hide FailedOf, AcceptedOf;
  }

  lemma OneMore(found: set<Peer>, last: Peer, outcomes: Outcomes)
    requires last in outcomes && last !in found
    ensures AcceptedOf(found + {last}, outcomes) ==
            AcceptedOf(found, outcomes) + if outcomes[last].Accepted? then {last} else {}
    ensures FailedOf(found + {last}, outcomes) ==
            FailedOf(found, outcomes) + if outcomes[last].Failed? then {last} else {}
  {
  }

  lemma DeliveredUnique(r: Registry, peers: set<Peer>, frame: Wire.Frame, outcomes: Outcomes, a: Registry, b: Registry)
    requires peers <= outcomes.Keys && DistinctChannels(r)
    requires Delivered(r, peers, frame, outcomes, a) && Delivered(r, peers, frame, outcomes, b)
    ensures a == b
  {
    assert a.clients == b.clients;
    forall c | c in r.queues
      ensures a.queues[c] == b.queues[c]
    {
      if p :| p in r.clients && r.clients[p].sx == c {
        assert r.clients[p].sx in r.queues;
      }
    }
    assert a.queues == b.queues;
  }

  /** Two completion orders of the same broadcast leave the same registry,
      queues and counters. */
  lemma OrderDoesNotMatter(r: Registry, order1: seq<Peer>, order2: seq<Peer>, frame: Wire.Frame, outcomes: Outcomes)
    requires NoDuplicates(order1) && NoDuplicates(order2) && ToSet(order1) == ToSet(order2)
    requires ToSet(order1) <= outcomes.Keys && DistinctChannels(r)
    ensures Complete(r, order1, frame, outcomes) == Complete(r, order2, frame, outcomes)
  {
    CompleteDelivers(r, order1, frame, outcomes);
    CompleteDelivers(r, order2, frame, outcomes);
    DeliveredUnique(r, ToSet(order1), frame, outcomes,
                    Complete(r, order1, frame, outcomes), Complete(r, order2, frame, outcomes));
  }

  /** Each snapshot peer found at its lookup is counted once, as sent or as an
      error, and no other is counted. */
  lemma EveryPeerIsCounted(r: Registry, order: seq<Peer>, frame: Wire.Frame, outcomes: Outcomes)
    requires NoDuplicates(order) && ToSet(order) <= outcomes.Keys && DistinctChannels(r)
    ensures var m := Complete(r, order, frame, outcomes).metrics;
      m.messagesSent + m.sendErrors == r.metrics.messagesSent + r.metrics.sendErrors + |Found(r, ToSet(order))|
  {
    CompleteDelivers(r, order, frame, outcomes);
    EachIsTakenOrLost(Found(r, ToSet(order)), outcomes);
    hide Complete, ClientsAfter, QueuesAfter, AcceptedOf, FailedOf, ToSet, Found, DistinctChannels;
  }

  lemma EachIsTakenOrLost(found: set<Peer>, outcomes: Outcomes)
    requires found <= outcomes.Keys
    ensures |AcceptedOf(found, outcomes)| + |FailedOf(found, outcomes)| == |found|
  {
    var took, lost := AcceptedOf(found, outcomes), FailedOf(found, outcomes);
    assert took + lost == found && took !! lost;
  }
}
