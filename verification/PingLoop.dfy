/** The client's health checker, internal and external: one verdict per tick
    and a capped doubling interval (src/helpers/internal_client.rs:422-578). */
module PingLoops {
  import opened Results
  import opened Backoffs
  import SS = ServerSenders

  datatype Verdict = Dead | PingNeeded | Alive

  /** `retry` is `retry_seconds.max(1)`; `received` is 0 before any message. */
  function Judge(retry: nat, received: int, now: int): Verdict {
    if received > 0 && received + retry * 4 < now then Dead
    else if received > 0 && received + retry * 2 < now then PingNeeded
    else Alive
  }

  function NextInterval(retry: nat, current: nat, verdict: Verdict): nat {
    match verdict
    case Dead => if current * 2 < retry * 8 then current * 2 else retry * 8
    case PingNeeded => current
    case Alive => retry
  }

  class PingLoop {
    const retrySeconds: nat
    const usePing: bool
    const useKeepIp: bool
    var currentRetrySeconds: nat

    constructor (retrySeconds: nat, usePing: bool, useKeepIp: bool)
      ensures this.retrySeconds == (if retrySeconds > 1 then retrySeconds else 1)
      ensures this.usePing == usePing && this.useKeepIp == useKeepIp && currentRetrySeconds == this.retrySeconds
    {
      var retry := if retrySeconds > 1 then retrySeconds else 1;
      this.retrySeconds, this.usePing, this.useKeepIp, this.currentRetrySeconds := retry, usePing, useKeepIp, retry;
    }

    /** One turn of the loop after its sleep. On a dead connection it evicts
        the sender unless told to keep it, and reconnects; otherwise it may
        ask for a ping. */
    method Tick(sender: SS.ServerSender, now: int)
      returns (verdict: Verdict, notice: Option<SS.Notice>, reconnect: bool, ping: bool)
      modifies this`currentRetrySeconds, sender
      ensures verdict == Judge(retrySeconds, old(sender.receivedTimes), now)
      ensures currentRetrySeconds == NextInterval(retrySeconds, old(currentRetrySeconds), verdict)
      ensures var silence := now - old(sender.receivedTimes);
        && (verdict.Dead? <==> old(sender.receivedTimes) > 0 && silence > 4 * retrySeconds)
        && (verdict.PingNeeded? <==> old(sender.receivedTimes) > 0 && 2 * retrySeconds < silence <= 4 * retrySeconds)
      ensures verdict.Dead? && old(currentRetrySeconds) <= 4 * retrySeconds ==>
        currentRetrySeconds == 2 * old(currentRetrySeconds)
      ensures verdict.Dead? && old(currentRetrySeconds) > 4 * retrySeconds ==> currentRetrySeconds == 8 * retrySeconds
      ensures verdict.PingNeeded? ==> currentRetrySeconds == old(currentRetrySeconds)
      ensures verdict.Alive? ==> currentRetrySeconds == retrySeconds
      ensures verdict.Dead? && !useKeepIp && old(sender.serverIp) != "" ==> sender.sx == None && sender.serverIp == ""
      ensures reconnect <==> verdict.Dead?
      ensures ping <==> verdict.PingNeeded? && usePing
      ensures (notice, sender.State()) ==
        if verdict.Dead? && !useKeepIp then SS.RemoveIp(old(sender.State())) else (None, old(sender.State()))
    {
      notice, reconnect, ping := None, false, false;
      var received := sender.receivedTimes;
      if received > 0 && received + retrySeconds * 4 < now {
        verdict := Dead;
        if !useKeepIp {
          notice := sender.ClearIp();
        }
        reconnect := true;
        currentRetrySeconds :=
          if currentRetrySeconds * 2 < retrySeconds * 8 then currentRetrySeconds * 2 else retrySeconds * 8;
      } else if received > 0 && received + retrySeconds * 2 < now {
        verdict := PingNeeded;
        ping := usePing;
      } else {
        verdict := Alive;
        currentRetrySeconds := retrySeconds;
      }
    }
  }

  // ----------------------------------------------------------- over time

  /** Messages arrive at any time; a tick that is due comes before time moves
      on, and takes none. `dead`, `sawAlive` and `pings` describe the ticks
      since the last message; `misses` counts the dead ticks since the last
      alive one. */
  datatype Timed = Timed(
    clock: nat, nextTick: nat, interval: nat, received: nat, dead: bool, sawAlive: bool, pings: nat, misses: nat)

  datatype Step = Advance(seconds: nat) | Receive | TickDue

  /** The client starts at some clock reading, with no message yet. */
  function Start(retry: nat, now: nat): Timed {
    Timed(now, now + retry, retry, 0, false, false, 0, 0)
  }

  function VerdictAt(retry: nat, s: Timed): Verdict {
    Judge(retry, s.received, s.clock)
  }

  function Next(retry: nat, s: Timed, step: Step): Option<Timed> {
    match step
    case Advance(seconds) =>
      if s.clock + seconds <= s.nextTick then Some(s.(clock := s.clock + seconds)) else None
    case Receive => Some(s.(received := s.clock, dead := false, sawAlive := false, pings := 0))
    case TickDue =>
      if s.clock != s.nextTick then None
      else
        var verdict := VerdictAt(retry, s);
        var interval := NextInterval(retry, s.interval, verdict);
        Some(s.(nextTick := s.clock + interval, interval := interval,
                dead := s.dead || verdict.Dead?,
                sawAlive := s.sawAlive || verdict.Alive?,
                pings := s.pings + (if verdict.PingNeeded? then 1 else 0),
                misses := if verdict.Dead? then s.misses + 1 else if verdict.Alive? then 0 else s.misses))
  }

  function Run(retry: nat, s: Timed, steps: seq<Step>): Option<Timed>
    decreases |steps|
  {
    if steps == [] then Some(s)
    else
      var next := Next(retry, s, steps[0]);
      if next.None? then None else Run(retry, next.value, steps[1..])
  }

  predicate IsBackoff(retry: nat, interval: nat) {
    interval == retry || interval == retry * 2 || interval == retry * 4 || interval == retry * 8
  }

  ghost predicate Inv(retry: nat, s: Timed) {
    && s.interval == retry * Min(Pow2(s.misses), 8)
    && s.clock <= s.nextTick <= s.clock + s.interval
    && s.received <= s.clock
    && (s.received == 0 ==> !s.dead && s.interval == retry)
    && (s.received > 0 && !s.dead ==> NoVerdictYet(retry, s))
  }

  /** Between the last message and its dead verdict: no tick so far, or the
      last tick was alive and reset the interval, or it was in the ping window. */
  ghost predicate NoVerdictYet(retry: nat, s: Timed) {
    var silence := s.nextTick - s.received;
    if s.sawAlive then
      && s.interval == retry
      && (if s.pings == 0 then silence <= 3 * retry
          else if s.pings == 1 then 3 * retry < silence <= 4 * retry
          else s.pings == 2 && 4 * retry < silence <= 5 * retry)
    else if s.pings == 0 then silence <= s.interval
    else 2 * retry < silence - s.interval <= 4 * retry
  }

  lemma StepKeepsInv(retry: nat, s: Timed, step: Step)
    requires retry >= 1 && Inv(retry, s) && Next(retry, s, step).Some?
    ensures Inv(retry, Next(retry, s, step).value)
  {
    CappedPower(retry, s.misses);
    CappedPower(retry, s.misses + 1);
    hide Pow2;
  }

  /** One doubling more, capped before or after it. */
  lemma CappedPower(retry: nat, k: nat)
    ensures Pow2(0) == 1 && Pow2(k + 1) == 2 * Pow2(k)
    ensures IsBackoff(retry, retry * Min(Pow2(k), 8))
    ensures retry * Min(Pow2(k + 1), 8) == Min(2 * (retry * Min(Pow2(k), 8)), retry * 8)
  {
    var p := Min(Pow2(k), 8);
    assert p == 1 || p == 2 || p == 4 || p == 8 by { SmallPower(k); }
    SmallPower(k + 1);
    hide Pow2;
    if p < 8 {
      assert p == Pow2(k);
    }
  }

  lemma {:induction false} SmallPower(k: nat)
    ensures Pow2(k) == 1 || Pow2(k) == 2 || Pow2(k) == 4 || Pow2(k) >= 8
  {
    if k > 0 {
      SmallPower(k - 1);
    }
  }

  lemma {:induction false} RunKeepsInv(retry: nat, s: Timed, steps: seq<Step>)
    requires retry >= 1 && Inv(retry, s) && Run(retry, s, steps).Some?
    ensures Inv(retry, Run(retry, s, steps).value)
    decreases |steps|
  {
    hide Inv, Next;
    if steps != [] {
      StepKeepsInv(retry, s, steps[0]);
      RunKeepsInv(retry, Next(retry, s, steps[0]).value, steps[1..]);
    }
  }

  ghost predicate Reachable(retry: nat, s: Timed) {
    exists now, steps :: Run(retry, Start(retry, now), steps) == Some(s)
  }

  lemma ReachableInv(retry: nat, s: Timed)
    requires retry >= 1 && Reachable(retry, s)
    ensures Inv(retry, s)
  {
    hide Run, Next;
    var now, steps :| Run(retry, Start(retry, now), steps) == Some(s);
    CappedPower(retry, 0);
    assert Inv(retry, Start(retry, now));
    RunKeepsInv(retry, Start(retry, now), steps);
  }

  /** The interval is the retry period doubled for each dead tick since the
      last alive one, up to three times. */
  lemma IntervalIsBackoff(retry: nat, s: Timed)
    requires retry >= 1 && Reachable(retry, s)
    ensures s.interval == retry * Min(Pow2(s.misses), 8)
    ensures IsBackoff(retry, s.interval)
  {
    ReachableInv(retry, s);
    CappedPower(retry, s.misses);
  }

  /** Silence since t is declared dead by t + 12r at the latest, and by t + 5r
      if some tick since t saw the connection alive. */
  lemma DeadVerdictInTime(retry: nat, s: Timed)
    requires retry >= 1 && Reachable(retry, s) && s.received > 0 && !s.dead
    ensures var limit := s.received + (if s.sawAlive then 5 else 12) * retry;
      && s.clock <= limit
      && (s.clock == limit ==> s.nextTick == s.clock && VerdictAt(retry, s).Dead?)
  {
    ReachableInv(retry, s);
    CappedPower(retry, s.misses);
    hide Pow2;
  }

  /** A dead verdict comes only after a message and more than 4r of silence,
      and, if some tick saw the connection alive, after exactly two ticks in
      the ping window. */
  lemma DeadVerdictNotEarly(retry: nat, s: Timed)
    requires retry >= 1 && Reachable(retry, s) && s.clock == s.nextTick && VerdictAt(retry, s).Dead?
    ensures s.received > 0 && s.clock > s.received + 4 * retry
    ensures s.sawAlive && !s.dead ==> s.pings == 2
  {
    ReachableInv(retry, s);
    CappedPower(retry, s.misses);
    hide Pow2;
  }

  /** At the instant of a dead (or ping) verdict the address does not count as
      valid, so the reconnection that follows is not taken for a live one. */
  lemma UnhealthyIsNotValid(s: SS.SenderState, retrySeconds: nat, now: int)
    requires !Judge(if retrySeconds > 1 then retrySeconds else 1, s.receivedTimes, now).Alive?
    ensures !SS.IsValidServerIp(s, retrySeconds, now)
  {
  }

  /** An address counts as valid exactly while it is there and silence is under
      twice the retry period: that is, while a tick would find it alive, save
      for the one second that is exactly twice. */
  lemma ValidExactlyWhen(s: SS.SenderState, retrySeconds: nat, now: int)
    ensures var retry := if retrySeconds > 1 then retrySeconds else 1;
      && (SS.IsValidServerIp(s, retrySeconds, now) <==> s.serverIp != "" && now - s.receivedTimes < 2 * retry)
      && (s.receivedTimes > 0 && s.serverIp != "" ==>
            (SS.IsValidServerIp(s, retrySeconds, now) <==>
               Judge(retry, s.receivedTimes, now).Alive? && now - s.receivedTimes != 2 * retry))
  {
  }
}
