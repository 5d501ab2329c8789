/**
 The paced sender of the throughput test: a burst for every millisecond tick, against a
 clock that only moves forward and a sleep that lasts at least as long as asked.
 */
module Pacing {

  /** Nanoseconds. */
  const MILLISECOND := 1_000_000

  /** The clock, and how often the sender has written so far, and with success. */
  class Clock {
    var now: int
    ghost var attempts: nat
    ghost var delivered: nat

    constructor ()
      ensures attempts == delivered == 0
    {
      now, attempts, delivered := *, 0, 0;
    }

    /** Time passes between any two readings, and while anything else happens. */
    method Now() returns (t: int)
      modifies this`now
      ensures t == now >= old(now)
    {
      var passed: int :| passed >= 0;
      now := now + passed;
      t := now;
    }

    method Sleep(d: int)
      modifies this`now
      ensures now >= old(now) && now >= old(now) + d
    {
      var passed: int :| passed >= 0;
      now := now + passed + if d > 0 then d else 0;
    }
  }

  method WritePacketData(clock: Clock) returns (ok: bool)
    modifies clock
    ensures clock.now >= old(clock.now)
    ensures clock.attempts == old(clock.attempts) + 1
    ensures clock.delivered == old(clock.delivered) + if ok then 1 else 0
  {
    var t := clock.Now();
    ok := *;
    clock.attempts := clock.attempts + 1;
    clock.delivered := clock.delivered + if ok then 1 else 0;
  }

  /** The burst for each tick: at least one frame. */
  function PerTick(targetPPS: int): (n: nat)
    ensures n >= 1
    ensures targetPPS >= 1000 ==> n * 1000 <= targetPPS < (n + 1) * 1000
    ensures targetPPS < 1000 ==> n == 1
  {
    if targetPPS < 1000 then 1 else targetPPS / 1000
  }

  /** The number of ticks that start within d. */
  function Ticks(d: int): (n: nat)
    ensures d <= 0 ==> n == 0
    ensures d > 0 ==> (n - 1) * MILLISECOND < d <= n * MILLISECOND
  {
    if d <= 0 then 0 else (d + MILLISECOND - 1) / MILLISECOND
  }

  /** A burst is perMs writes, and counts those that succeed. */
  method Burst(clock: Clock, perMs: nat) returns (sent: nat)
    modifies clock
    ensures sent <= perMs && clock.now >= old(clock.now)
    ensures clock.attempts == old(clock.attempts) + perMs && clock.delivered == old(clock.delivered) + sent
  {
    sent := 0;
    for i := 0 to perMs
      invariant sent <= i && clock.now >= old(clock.now)
      invariant clock.attempts == old(clock.attempts) + i && clock.delivered == old(clock.delivered) + sent
    {
      var ok := WritePacketData(clock);
      if ok {
        sent := sent + 1;
      }
    }
  }

  /** Paced sending keeps to its rate: however late the clock is read and however long
      writes and sleeps last, it sends whole bursts, at most one for every millisecond begun,
      and counts exactly the writes that succeed. It goes on until d has passed; `waited` is
      how long it took to begin, and if it began in time it has sent a burst at least. Turn k
      does not start before k milliseconds after the first tick. */
  method PacedSend(clock: Clock, d: int, targetPPS: int) returns (tx: nat, ghost bursts: nat, ghost waited: int)
    requires targetPPS > 0
    modifies clock
    ensures tx <= Ticks(d) * PerTick(targetPPS)
    ensures bursts <= Ticks(d) && clock.attempts == old(clock.attempts) + bursts * PerTick(targetPPS)
    ensures clock.delivered == old(clock.delivered) + tx
    ensures clock.now >= old(clock.now) + d && (waited < d ==> bursts > 0)
  {
    tx := 0;
    var start := clock.Now();
    var perMs := targetPPS / 1000;
    if perMs < 1 {
      perMs := 1;
    }
    var tick := clock.Now();
    ghost var first := tick;
    bursts := 0;
    var now := clock.Now();
    waited := now - start;
    while now - start < d
      invariant old(clock.now) <= start <= first && tick == first + bursts * MILLISECOND && tick <= now <= clock.now
      invariant 0 <= bursts <= Ticks(d) && tx <= bursts * perMs
      invariant clock.attempts == old(clock.attempts) + bursts * perMs && clock.delivered == old(clock.delivered) + tx
      invariant bursts == 0 ==> waited == now - start
      decreases start + d - tick
    {
      var sent := Burst(clock, perMs);
      tx := tx + sent;
      tick := tick + MILLISECOND;
      var until := clock.Now();
      if tick - until > 0 {
        clock.Sleep(tick - until);
      }
      OneMoreTurn(bursts, perMs);
      bursts := bursts + 1;
      now := clock.Now();
    }
    BoundTurns(bursts, Ticks(d), perMs);
  }

  lemma OneMoreTurn(k: nat, perMs: nat)
    ensures (k + 1) * perMs == k * perMs + perMs
  {
  }

  lemma BoundTurns(k: nat, n: nat, perMs: nat)
    requires k <= n
    ensures k * perMs <= n * perMs
  {
  }
}
