/** The server's client registry as a value, and what each operation of
    src/helpers/client_sender.rs does to it. */
module Registries {
  import opened Results
  import opened Counters
  import Wire

  type Peer = string
  type ChannelId = nat

  datatype Client = Client(sx: ChannelId, sendTime: int)

  /** `queues` holds what each outgoing channel has been given. */
  datatype Registry = Registry(
    clients: map<Peer, Client>, queues: map<ChannelId, seq<Wire.Frame>>, metrics: MetricsSnapshot)

  function Insert(r: Registry, peer: Peer, sx: ChannelId, now: int): Registry {
    r.(clients := r.clients[peer := Client(sx, now)])
  }

  function CountAdd(m: MetricsSnapshot, replacing: bool): MetricsSnapshot {
    m.(connectionsTotal := m.connectionsTotal + 1,
       connectionsActive := if replacing then m.connectionsActive else m.connectionsActive + 1)
  }

  function Remove(r: Registry, peer: Peer): Registry {
    if peer !in r.clients then r
    else
      r.(clients := r.clients - {peer},
         metrics := r.metrics.(connectionsActive := Dec(r.metrics.connectionsActive)))
  }

  function WriteTime(r: Registry, peer: Peer, now: int): Registry {
    if peer in r.clients then r.(clients := r.clients[peer := r.clients[peer].(sendTime := now)]) else r
  }

  /** How one `send` ends: the channel took the message and the time was
      written at `at`, or two seconds passed or the channel was closed. */
  datatype SendOutcome = Accepted(at: int) | Failed

  /** One `send` of the trait: queue or count an error, then refresh or remove. */
  function CompleteSend(r: Registry, peer: Peer, frame: Wire.Frame, outcome: SendOutcome): Registry {
    if peer !in r.clients then r
    else
      var sx := r.clients[peer].sx;
      match outcome
      case Accepted(at) =>
        var m := r.metrics.(messagesSent := r.metrics.messagesSent + 1);
        var queue := if sx in r.queues then r.queues[sx] else [];
        WriteTime(r.(queues := r.queues[sx := queue + [frame]], metrics := m), peer, at)
      case Failed =>
        Remove(r.(metrics := r.metrics.(sendErrors := r.metrics.sendErrors + 1)), peer)
  }

  /** The entries a sweep at `now` keeps. */
  function Fresh(clients: map<Peer, Client>, timeout: nat, now: int): map<Peer, Client> {
    map p | p in clients && clients[p].sendTime + timeout >= now :: clients[p]
  }
}
