/** The timeout sweep over time: `loop_client_checker` runs it every interval
    (src/helpers/internal_server.rs:268-292), and connections and sends refresh
    the entries in between. Time is in whole seconds and only moves forward; a
    sweep that is due runs before time moves on. */
module SweepRuns {
  import opened Results
  import opened Counters
  import opened Registries

  /** `last` is history: when each peer was last registered or sent to. */
  datatype Timed = Timed(
    clients: map<Peer, Client>, active: nat, clock: nat, nextSweep: nat, last: map<Peer, int>)

  datatype Step =
    | Advance(seconds: nat)
    | Register(peer: Peer, sx: ChannelId)
    | SendOk(peer: Peer)
    | Leave(peer: Peer)
    | Sweep

  /** The checker's interval is at least one second. */
  function Interval(checkIntervalSecs: nat): (i: nat)
    ensures i >= 1 && i >= checkIntervalSecs && (i == 1 || i == checkIntervalSecs)
  {
    if checkIntervalSecs > 1 then checkIntervalSecs else 1
  }

  function Start(interval: nat): Timed {
    Timed(map[], 0, 0, interval, map[])
  }

  function Next(s: Timed, timeout: nat, interval: nat, step: Step): Option<Timed> {
    match step
    case Advance(seconds) =>
      if s.clock + seconds <= s.nextSweep then Some(s.(clock := s.clock + seconds)) else None
    case Register(peer, sx) =>
      Some(s.(clients := s.clients[peer := Client(sx, s.clock)],
              active := if peer in s.clients then s.active else s.active + 1,
              last := s.last[peer := s.clock]))
    case SendOk(peer) =>
      if peer !in s.clients then None
      else
        Some(s.(clients := s.clients[peer := s.clients[peer].(sendTime := s.clock)], last := s.last[peer := s.clock]))
    case Leave(peer) =>
      if peer !in s.clients then Some(s) else Some(s.(clients := s.clients - {peer}, active := Dec(s.active)))
    case Sweep =>
      if s.clock != s.nextSweep then None
      else
        var kept := Fresh(s.clients, timeout, s.clock);
        Some(s.(clients := kept, active := DecBy(s.active, |s.clients.Keys - kept.Keys|),
                nextSweep := s.nextSweep + interval))
  }

  function Run(s: Timed, timeout: nat, interval: nat, steps: seq<Step>): Option<Timed>
    decreases |steps|
  {
    if steps == [] then Some(s)
    else
      var next := Next(s, timeout, interval, steps[0]);
      if next.None? then None else Run(next.value, timeout, interval, steps[1..])
  }

  ghost predicate Inv(s: Timed, timeout: nat, interval: nat) {
    && s.clock <= s.nextSweep <= s.clock + interval
    && s.active == |s.clients|
    && (forall p :: p in s.clients ==>
          && p in s.last && s.last[p] == s.clients[p].sendTime
          && s.last[p] <= s.clock && s.nextSweep <= s.last[p] + timeout + interval)
  }

  lemma StepKeepsInv(s: Timed, timeout: nat, interval: nat, step: Step)
    requires Inv(s, timeout, interval) && Next(s, timeout, interval, step).Some?
    ensures Inv(Next(s, timeout, interval, step).value, timeout, interval)
  {
    StepKeepsGauge(s, timeout, interval, step);
    if step.Sweep? {
      SweepKeepsDeadline(s, timeout, interval);
    } else {
      hide Dec, DecBy, Fresh;
    }
  }

  lemma SweepKeepsDeadline(s: Timed, timeout: nat, interval: nat)
    requires Inv(s, timeout, interval) && s.clock == s.nextSweep
    requires Next(s, timeout, interval, Sweep).value.active == |Next(s, timeout, interval, Sweep).value.clients|
    ensures Inv(Next(s, timeout, interval, Sweep).value, timeout, interval)
  {
    hide Dec, DecBy;
  }

  lemma StepKeepsGauge(s: Timed, timeout: nat, interval: nat, step: Step)
    requires s.active == |s.clients| && Next(s, timeout, interval, step).Some?
    ensures var after := Next(s, timeout, interval, step).value; after.active == |after.clients|
  {
    var after := Next(s, timeout, interval, step).value;
    var keys, left := s.clients.Keys, after.clients.Keys;
    assert |s.clients| == |keys| && |after.clients| == |left|;
    match step
    case Register(peer, _) => assert left == keys + {peer};
    case SendOk(peer) => assert left == keys;
    case Leave(peer) => assert peer in keys ==> left == keys - {peer};
    case Sweep => SweepKeepsGauge(s, timeout, interval);
    case Advance(_) =>
  }

  lemma SweepKeepsGauge(s: Timed, timeout: nat, interval: nat)
    requires s.active == |s.clients| && Next(s, timeout, interval, Sweep).Some?
    ensures var after := Next(s, timeout, interval, Sweep).value; after.active == |after.clients|
  {
    var keys, left := s.clients.Keys, Fresh(s.clients, timeout, s.clock).Keys;
    assert left <= keys;
    SubsetSizes(left, keys);
    hide Fresh;
  }

  lemma SubsetSizes(left: set<Peer>, keys: set<Peer>)
    requires left <= keys
    ensures |keys - left| == |keys| - |left|
  {
    assert left + (keys - left) == keys;
  }

  lemma {:induction false} RunKeepsInv(s: Timed, timeout: nat, interval: nat, steps: seq<Step>)
    requires Inv(s, timeout, interval) && Run(s, timeout, interval, steps).Some?
    ensures Inv(Run(s, timeout, interval, steps).value, timeout, interval)
    decreases |steps|
  {
    hide Inv, Next;
    if steps != [] {
      StepKeepsInv(s, timeout, interval, steps[0]);
      RunKeepsInv(Next(s, timeout, interval, steps[0]).value, timeout, interval, steps[1..]);
    }
  }

  /** Over every run: a registered peer was refreshed at most T + I ago, and at
      exactly T + I the sweep that removes it is due at that very instant. */
  lemma StalePeersAreGone(timeout: nat, checkIntervalSecs: nat, steps: seq<Step>, peer: Peer)
    requires var i := Interval(checkIntervalSecs); Run(Start(i), timeout, i, steps).Some?
    ensures var i := Interval(checkIntervalSecs); var s := Run(Start(i), timeout, i, steps).value;
      peer in s.clients ==>
        && peer in s.last && s.clock <= s.last[peer] + timeout + i
        && (s.clock == s.last[peer] + timeout + i ==>
              Next(s, timeout, i, Sweep).Some? && peer !in Next(s, timeout, i, Sweep).value.clients)
  {
    var i := Interval(checkIntervalSecs);
    RunKeepsInv(Start(i), timeout, i, steps);
  }

  /** Over every run: a sweep removes a peer exactly when it was neither
      registered nor successfully sent to within the timeout, and takes the
      gauge down with it to the number of peers left. */
  lemma SweepRemovesExactlyTheStale(timeout: nat, checkIntervalSecs: nat, steps: seq<Step>, peer: Peer)
    requires var i := Interval(checkIntervalSecs);
      Run(Start(i), timeout, i, steps).Some? && Next(Run(Start(i), timeout, i, steps).value, timeout, i, Sweep).Some?
    ensures var i := Interval(checkIntervalSecs); var s := Run(Start(i), timeout, i, steps).value;
      var after := Next(s, timeout, i, Sweep).value;
      && (peer in s.clients ==> peer in s.last && (peer in after.clients <==> s.last[peer] + timeout >= s.clock))
      && (peer !in s.clients ==> peer !in after.clients)
      && after.active == |after.clients|
  {
    var i := Interval(checkIntervalSecs);
    RunKeepsInv(Start(i), timeout, i, steps);
    StepKeepsInv(Run(Start(i), timeout, i, steps).value, timeout, i, Sweep);
  }
}
