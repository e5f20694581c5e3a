/** The retrier's delay loop, and how long one of its passes can keep the consumer
    from polling. Times are seconds. */
module Retrier {
  import opened Model
  import opened Failures
  import opened Pipeline
  import opened Classifier

  const SLEEP_CHUNK_SECONDS: real := 5.0
  const MAX_POLL_INTERVAL_SECONDS: real := 600.0

  /** A clock that never goes back; a sleep lasts what was asked for and possibly
      longer, and the clock keeps the account of both. */
  class Clock {
    var now: real
    ghost var asked: real
    ghost var overslept: real

    constructor (now: real)
      ensures this.now == now && asked == 0.0 && overslept == 0.0
    {
      this.now := now;
      asked, overslept := 0.0, 0.0;
    }

    method Sleep(seconds: real, extra: real)
      requires seconds >= 0.0 && extra >= 0.0
      modifies this
      ensures now == old(now) + seconds + extra
      ensures asked == old(asked) + seconds && overslept == old(overslept) + extra
    {
      now := now + seconds + extra;
      asked, overslept := asked + seconds, overslept + extra;
    }

    /** Time spent in a request. */
    method Spend(seconds: real)
      requires seconds >= 0.0
      modifies this`now
      ensures now == old(now) + seconds
    {
      now := now + seconds;
    }
  }

  function Chunk(remaining: real): real {
    if remaining < SLEEP_CHUNK_SECONDS then remaining else SLEEP_CHUNK_SECONDS
  }

  /** Sleeps still ahead when each one lasts exactly as long as asked. */
  function SleepsLeft(remaining: real): int {
    if remaining <= 0.0 then 0 else 1 + (remaining / SLEEP_CHUNK_SECONDS).Floor
  }

  lemma ChunkShortens(remaining: real, extra: real)
    requires remaining > 0.0 && extra >= 0.0
    ensures 0 <= SleepsLeft(remaining - Chunk(remaining) - extra) < SleepsLeft(remaining)
  {
    var left := remaining - Chunk(remaining) - extra;
    if left > 0.0 {
      assert left / SLEEP_CHUNK_SECONDS <= remaining / SLEEP_CHUNK_SECONDS - 1.0;
    }
  }

  /** `wait_until`: sleep in chunks until the target is reached; no target, or one
      that cannot be parsed, is no wait. */
  method WaitUntil(clock: Clock, notBefore: Field<real>, extra: nat -> real) returns (sleeps: seq<real>)
    requires forall i :: extra(i) >= 0.0
    modifies clock
    ensures notBefore.Good? ==> clock.now >= notBefore.value
    ensures !notBefore.Good? || notBefore.value <= old(clock.now) ==> clock.now == old(clock.now) && sleeps == []
    ensures forall i | 0 <= i < |sleeps| :: 0.0 < sleeps[i] <= 5.0
    ensures clock.asked - old(clock.asked) <=
            if notBefore.Good? && notBefore.value > old(clock.now) then notBefore.value - old(clock.now) else 0.0
    ensures clock.now - old(clock.now) == (clock.asked - old(clock.asked)) + (clock.overslept - old(clock.overslept))
    ensures clock.overslept >= old(clock.overslept) && clock.now >= old(clock.now)
  {
    sleeps := [];
    if !notBefore.Good? {
      return;
    }
    var target := notBefore.value;
    while target - clock.now > 0.0
      invariant forall i | 0 <= i < |sleeps| :: 0.0 < sleeps[i] <= SLEEP_CHUNK_SECONDS
      invariant clock.now - old(clock.now) ==
                (clock.asked - old(clock.asked)) + (clock.overslept - old(clock.overslept))
      invariant clock.overslept >= old(clock.overslept)
      invariant old(clock.now) <= clock.now
      invariant target <= old(clock.now) ==> clock.now == old(clock.now) && sleeps == []
      invariant clock.asked == old(clock.asked) || clock.asked - old(clock.asked) <= target - old(clock.now)
      decreases SleepsLeft(target - clock.now)
    {
      var remaining := target - clock.now;
      var pause := Chunk(remaining);
      ChunkShortens(remaining, extra(|sleeps|));
      clock.Sleep(pause, extra(|sleeps|));
      sleeps := sleeps + [pause];
    }
  }

  /** The time the requests `from` up to `to` take. */
  function RequestTime(took: nat -> real, from: nat, to: nat): real
    decreases to
  {
    if to <= from then 0.0 else RequestTime(took, from, to - 1) + took(to - 1)
  }

  lemma {:induction false} RequestsAreBounded(took: nat -> real, calls: nat, timeout: real)
    requires forall i :: 0.0 <= took(i) <= timeout
    ensures 0.0 <= RequestTime(took, 0, calls) <= calls as real * timeout
    decreases calls
  {
    if calls > 0 {
      RequestsAreBounded(took, calls - 1, timeout);
      assert calls as real * timeout == (calls - 1) as real * timeout + timeout;
    }
  }

  /** Two full rounds of requests and of backoff. */
  function ClassifyBudget(timeout: real, s: Settings): real
    requires s.maxCalls >= 1
  {
    (2 * Tries(s)) as real * timeout + 2.0 * BackoffOf(s, Tries(s) - 1)
  }

  lemma InTotal(spent: real, slept: real, x: real, y: real, timeout: real, backoff: real)
    requires spent <= x * timeout && x <= y && timeout >= 0.0 && slept <= backoff
    ensures spent + slept <= y * timeout + backoff
  {
    assert 0.0 <= (y - x) * timeout;
  }

  lemma ClassifyInBudget(took: nat -> real, calls: nat, slept: real, timeout: real, s: Settings)
    requires forall i :: 0.0 <= took(i) <= timeout
    requires s.maxCalls >= 1 && calls <= 2 * Tries(s) && slept <= 2.0 * BackoffOf(s, Tries(s) - 1)
    ensures 0.0 <= RequestTime(took, 0, calls)
    ensures RequestTime(took, 0, calls) + slept <= ClassifyBudget(timeout, s)
  {
    RequestsAreBounded(took, calls, timeout);
    assert 0.0 <= took(0) <= timeout;
    InTotal(RequestTime(took, 0, calls), slept, calls as real, (2 * Tries(s)) as real, timeout,
            2.0 * BackoffOf(s, Tries(s) - 1));
  }

  /** One retrier pass, up to its verdict: wait, then classify. When no wait is
      longer than `cap` and no request longer than `timeout`, the pass lasts at most
      the cap plus two full rounds of requests and backoff, plus whatever its sleeps,
      of the wait and of the backoff (`late`), overran. */
  method TimedPass(clock: Clock, notBefore: Field<real>, extra: nat -> real, s: Settings,
                   replies: nat -> ModelReply, took: nat -> real, late: real, cap: real, timeout: real)
    returns (out: PassResult, calls: nat, slept: real, ghost waited: real)
    requires (forall i :: extra(i) >= 0.0) && late >= 0.0
    requires forall i :: 0.0 <= took(i) <= timeout
    requires s.backoffBase >= 0.0 && cap >= 0.0 && s.maxCalls >= 1
    requires notBefore.Good? ==> notBefore.value - clock.now <= cap
    modifies clock
    ensures out == PassOf(s, replies)
    ensures waited >= 0.0 && (notBefore.Good? ==> old(clock.now) + waited >= notBefore.value)
    ensures clock.now == old(clock.now) + waited + RequestTime(took, 0, calls) + slept + late
    ensures clock.now - old(clock.now) <=
            cap + ClassifyBudget(timeout, s) + (clock.overslept - old(clock.overslept))
  {
    var sleeps := WaitUntil(clock, notBefore, extra);
    waited := clock.now - old(clock.now);
    out, calls, slept := Classify(s, replies);
    ClassifyInBudget(took, calls, slept, timeout, s);
    clock.Spend(RequestTime(took, 0, calls));
    clock.Sleep(slept, late);
  }

  /** A longer timeout, more tries or a larger backoff never shrink the budget, so
      settings no larger than the defaults (60 seconds, 3 tries, 1 second) keep
      every pass, its wait of at most 120 seconds included, to 486 seconds. */
  lemma SettingsFitPollInterval(cap: real, timeout: real, s: Settings)
    requires cap <= 120.0 && 0.0 <= timeout <= 60.0 && 1 <= s.maxCalls <= 3 && 0.0 <= s.backoffBase <= 1.0
    ensures cap + ClassifyBudget(timeout, s) <= 486.0 < 600.0 == MAX_POLL_INTERVAL_SECONDS
    ensures cap == 120.0 && timeout == 60.0 && s.maxCalls == 3 && s.backoffBase == 1.0 ==>
              cap + ClassifyBudget(timeout, s) == 486.0
  {
    var calls, rounds := 2 * Tries(s), Tries(s) - 1;
    Pow2Monotone(rounds, 2);
    assert Pow2(2) == 4;
    assert calls as real * timeout <= 6.0 * 60.0;
    assert s.backoffBase * (Pow2(rounds) - 1) as real <= 3.0;
  }
}
