/** The shared counters (src/helpers/metrics.rs). */
module Counters {
  datatype MetricsSnapshot = MetricsSnapshot(
    messagesSent: nat, messagesReceived: nat, messagesDropped: nat, connectionsTotal: nat, connectionsActive: nat,
    reconnections: nat, sendErrors: nat)

  /** A decrement that stops at zero. */
  function Dec(n: nat): nat {
    if n > 0 then n - 1 else 0
  }

  /** `k` decrements one after another. */
  function DecBy(n: nat, k: nat): (r: nat)
    ensures r == if n >= k then n - k else 0
  {
    if k == 0 then n else Dec(DecBy(n, k - 1))
  }

  lemma DecOnce(n: nat, k: nat)
    ensures Dec(DecBy(n, k)) == DecBy(n, k + 1)
  {
  }

  class Metrics {
    var messagesSent: nat
    var messagesReceived: nat
    var messagesDropped: nat
    var connectionsTotal: nat
    var connectionsActive: nat
    var reconnections: nat
    var sendErrors: nat

    function Snapshot(): MetricsSnapshot
      reads this
    {
      MetricsSnapshot(messagesSent, messagesReceived, messagesDropped, connectionsTotal, connectionsActive,
                      reconnections, sendErrors)
    }

    constructor ()
      ensures Snapshot() == MetricsSnapshot(0, 0, 0, 0, 0, 0, 0)
    {
      messagesSent, messagesReceived, messagesDropped, connectionsTotal, connectionsActive := 0, 0, 0, 0, 0;
      reconnections, sendErrors := 0, 0;
    }

    method IncMessagesSent()
      modifies this`messagesSent
      ensures messagesSent == old(messagesSent) + 1
    {
      messagesSent := messagesSent + 1;
    }

    method IncSendErrors()
      modifies this`sendErrors
      ensures sendErrors == old(sendErrors) + 1
    {
      sendErrors := sendErrors + 1;
    }

    method IncConnectionsTotal()
      modifies this`connectionsTotal
      ensures connectionsTotal == old(connectionsTotal) + 1
    {
      connectionsTotal := connectionsTotal + 1;
    }

    method IncConnectionsActive()
      modifies this`connectionsActive
      ensures connectionsActive == old(connectionsActive) + 1
    {
      connectionsActive := connectionsActive + 1;
    }

    method DecConnectionsActive()
      modifies this`connectionsActive
      ensures connectionsActive == Dec(old(connectionsActive))
    {
      if connectionsActive > 0 {
        connectionsActive := connectionsActive - 1;
      }
    }
  }
}
