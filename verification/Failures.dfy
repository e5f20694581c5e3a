/** Envelopes, the retry schedule, the decode checks of the three consumers and
    the circuit breaker. */
module Failures {
  import opened Model

  const ENVELOPE_SCHEMA: int := 1

  // ---------------------------------------------------------------- envelopes

  /** A failed message's envelope. `first` is the failure time carried over from
      the envelope being republished, if there is one. */
  function MakeEnvelope(reason: Reason, error: string, source: Source, message: Coord,
                        edit: Option<Edit>, raw: Option<Payload>, attempts: int,
                        first: Option<int>, notBefore: Option<int>, now: int): Envelope
  {
    Envelope(
      Good(ENVELOPE_SCHEMA), reason, error, source, Good(attempts),
      if first.Some? then first else Some(now), now, message,
      if edit.Some? then Good(edit.value) else Absent, raw,
      if notBefore.Some? then Good(notBefore.value) else Absent)
  }

  function ParkedEnvelope(source: Source, message: Coord, value: Payload, error: string, now: int): Envelope {
    MakeEnvelope(Malformed, error, source, message, None, Some(value), 1, None, None, now)
  }

  /** What a consumer works on once it has accepted a message. */
  datatype Job = Job(edit: Edit, attempts: int, firstFailedAt: Option<int>, notBefore: Option<int>)

  /** The worker accepts JSON objects that carry an id. */
  function DecodeRaw(value: Payload): Result<Job> {
    if value.EditJson? then Ok(Job(value.edit, 1, None, None)) else Err("not an edit object")
  }

  /** The retrier's checks, in the order it makes them. */
  function DecodeRetry(value: Payload): Result<Job> {
    if !value.EnvelopeJson? then Err("no edit member")
    else if !value.env.edit.Good? then Err("not an edit object")
    else if value.env.schema != Good(ENVELOPE_SCHEMA) then Err("unsupported envelope schema")
    else if value.env.attempts.Bad? then Err("attempts is not a number")
    else if value.env.notBefore.Bad? then Err("not_before is not a timestamp")
    else Ok(Job(
              value.env.edit.value,
              if value.env.attempts.Good? then value.env.attempts.value else 1,
              value.env.firstFailedAt,
              if value.env.notBefore.Good? then Some(value.env.notBefore.value) else None))
  }

  /** The sweeper's checks: an error here is a record it skips. */
  function DecodeDlq(value: Payload): Result<Job> {
    if !value.EnvelopeJson? then Err("undecodable record")
    else if value.env.schema != Good(ENVELOPE_SCHEMA) then Err("unsupported envelope schema")
    else if value.env.attempts.Bad? then Err("attempts is not a number")
    else if value.env.reason == Malformed then Err("nothing classifiable")
    else if !value.env.edit.Good? then Err("nothing classifiable")
    else Ok(Job(
              value.env.edit.value,
              if value.env.attempts.Good? then value.env.attempts.value else 1,
              value.env.firstFailedAt,
              None))
  }

  /** Exactly the JSON objects with an id are the worker's, each a first attempt. */
  lemma RawIsAccepted(value: Payload)
    ensures DecodeRaw(value).Ok? <==> value.EditJson?
    ensures value.EditJson? ==> DecodeRaw(value).value == Job(value.edit, 1, None, None)
  {
  }

  /** Exactly which records the retrier accepts, and what it reads from them: an
      edit, this schema's number, and an attempt count (1 when absent) and a
      `not_before` that can be read. */
  lemma RetryIsAccepted(value: Payload)
    ensures DecodeRetry(value).Ok? <==>
              value.EnvelopeJson? && value.env.edit.Good? && value.env.schema == Good(1) &&
              !value.env.attempts.Bad? && !value.env.notBefore.Bad?
    ensures DecodeRetry(value).Ok? ==>
              var job, env := DecodeRetry(value).value, value.env;
              job.edit == env.edit.value && job.firstFailedAt == env.firstFailedAt &&
              (env.attempts == Good(job.attempts) || (env.attempts == Absent && job.attempts == 1)) &&
              env.notBefore == (if job.notBefore.Some? then Good(job.notBefore.value) else Absent)
  {
  }

  /** Exactly which records the sweeper classifies; it skips all others: another
      schema, an unreadable attempt count, a malformed report, no edit. */
  lemma DlqIsAccepted(value: Payload)
    ensures DecodeDlq(value).Ok? <==>
              value.EnvelopeJson? && value.env.schema == Good(1) && !value.env.attempts.Bad? &&
              value.env.reason != Malformed && value.env.edit.Good?
    ensures DecodeDlq(value).Ok? ==>
              var job, env := DecodeDlq(value).value, value.env;
              job.edit == env.edit.value && job.firstFailedAt == env.firstFailedAt && job.notBefore == None &&
              (env.attempts == Good(job.attempts) || (env.attempts == Absent && job.attempts == 1))
  {
  }

  /** What a parked message's envelope says: the original payload and where it was
      read, a first attempt that failed now, and neither an edit nor a retry time. */
  lemma ParkKeepsTheEvidence(source: Source, m: Coord, value: Payload, error: string, now: int)
    ensures var env := ParkedEnvelope(source, m, value, error, now);
            env.raw == Some(value) && env.kafka == m && env.source == source && env.error == error &&
            env.reason == Malformed && env.schema == Good(1) && env.attempts == Good(1) &&
            env.edit == Absent && env.notBefore == Absent &&
            env.firstFailedAt == Some(now) && env.lastFailedAt == now
  {
  }

  // ----------------------------------------------------------- retry schedule

  function Pow2(n: nat): (r: nat)
    ensures r >= 1
  {
    if n == 0 then 1 else 2 * Pow2(n - 1)
  }

  function RetryDelay(cfg: Config, attempts: int): int
    requires attempts >= 1
  {
    Min(cfg.backoffBase * Pow2(attempts - 1), cfg.backoffMax)
  }

  /** The delays of the first `n` passes, added up. */
  function BackoffTotal(cfg: Config, n: nat): int {
    if n == 0 then 0 else BackoffTotal(cfg, n - 1) + RetryDelay(cfg, n)
  }

  lemma {:induction false} DelayDoublesUntilCapped(cfg: Config, attempts: nat)
    requires attempts >= 1
    ensures 0 <= RetryDelay(cfg, attempts) <= cfg.backoffMax
    ensures RetryDelay(cfg, attempts) <= RetryDelay(cfg, attempts + 1)
    ensures RetryDelay(cfg, attempts + 1) == Min(2 * RetryDelay(cfg, attempts), cfg.backoffMax)
  {
    var b, k := cfg.backoffBase, Pow2(attempts - 1);
    assert Pow2(attempts) == 2 * k;
    assert b * (2 * k) == 2 * (b * k);
    assert b * k >= 0;
  }

  lemma {:induction false} DelayMonotone(cfg: Config, a: nat, b: nat)
    requires 1 <= a <= b
    ensures RetryDelay(cfg, a) <= RetryDelay(cfg, b)
    decreases b - a
  {
    if a < b {
      DelayDoublesUntilCapped(cfg, a);
      DelayMonotone(cfg, a + 1, b);
    }
  }

  /** Where a transient failure goes after `attempts` passes, and why. */
  datatype Route = Route(topic: TopicName, reason: Reason, attempts: int, notBefore: Option<int>, at: int)

  function TransientDestination(cfg: Config, attempts: int, now: int): Route
    requires attempts >= 1
  {
    if attempts >= 1 + cfg.maxRetryPasses then
      Route(Dlq, RetriesExhausted, attempts, None, now)
    else
      Route(Retry, TransientExhausted, attempts, Some(now + RetryDelay(cfg, attempts)), now)
  }

  /** The whole schedule: the first M failed passes go to the retry topic, the n-th
      due base * 2^(n-1) after its routing and never later than the cap; any further
      one is exhausted and goes to the DLQ, due never. */
  lemma ScheduleIsExponential(cfg: Config, n: nat, now: int)
    requires n >= 1
    ensures var route, step := TransientDestination(cfg, n, now), cfg.backoffBase * Pow2(n - 1);
            route.attempts == n && route.at == now &&
            if n <= cfg.maxRetryPasses then
              route.topic == Retry && route.reason == TransientExhausted &&
              route.notBefore == Some(now + if step <= cfg.backoffMax then step else cfg.backoffMax)
            else route.topic == Dlq && route.reason == RetriesExhausted && route.notBefore == None
    ensures Pow2(0) == 1 && Pow2(n) == 2 * Pow2(n - 1)
  {
  }

  /** The worker's one-shot case: with at least one retry pass configured its
      transient failures always get a retry. */
  lemma WorkerAlwaysRetries(cfg: Config, now: int)
    ensures TransientDestination(cfg, 1, now).topic == Retry <==> cfg.maxRetryPasses >= 1
    ensures cfg.maxRetryPasses >= 1 ==>
      TransientDestination(cfg, 1, now).notBefore == Some(now + Min(cfg.backoffBase, cfg.backoffMax))
  {
    assert Pow2(0) == 1;
  }

  // ------------------------------------------------------------------ breaker

  /** How a message ended, once its offset is committed. */
  datatype Outcome = Skipped | Parked | Succeeded | ParseFailure | TransientFailure

  predicate Resets(o: Outcome) {
    o == Succeeded || o == ParseFailure
  }

  /** Transient failures since the last outcome that proved the model reachable. */
  function Streak(history: seq<Outcome>): nat {
    if history == [] then 0 else
    var last, before := history[|history| - 1], history[..|history| - 1];
    if last == TransientFailure then Streak(before) + 1
    else if Resets(last) then 0
    else Streak(before)
  }

  /** What each outcome does to the streak: a success and a parse failure end it, a
      park and a skip leave it, a transient failure lengthens it. */
  lemma StreakAfter(history: seq<Outcome>)
    ensures Streak([]) == 0
    ensures Streak(history + [Succeeded]) == 0 && Streak(history + [ParseFailure]) == 0
    ensures Streak(history + [Skipped]) == Streak(history) && Streak(history + [Parked]) == Streak(history)
    ensures Streak(history + [TransientFailure]) == Streak(history) + 1
  {
    assert (history + [Succeeded])[..|history|] == history;
    assert (history + [ParseFailure])[..|history|] == history;
    assert (history + [Skipped])[..|history|] == history;
    assert (history + [Parked])[..|history|] == history;
    assert (history + [TransientFailure])[..|history|] == history;
  }

  /** The same number, counted directly: the transient failures at or after any
      point `k` that follows the last success or parse failure. */
  lemma {:induction false} StreakCountsSinceReset(history: seq<Outcome>, k: nat)
    requires k <= |history|
    requires k > 0 ==> history[k - 1] == Succeeded || history[k - 1] == ParseFailure
    requires forall i | k <= i < |history| :: history[i] != Succeeded && history[i] != ParseFailure
    ensures Streak(history) == multiset(history[k..])[TransientFailure]
    decreases |history|
  {
    if k == |history| {
      assert history[k..] == [];
    } else {
      var n := |history| - 1;
      StreakCountsSinceReset(history[..n], k);
      assert history[k..] == history[..n][k..] + [history[n]];
    }
  }

  class CircuitBreaker {
    const threshold: int
    var consecutiveFailures: nat
    ghost var history: seq<Outcome>

    ghost predicate Valid()
      reads this
    {
      consecutiveFailures == Streak(history)
    }

    constructor (threshold: int)
      ensures Valid() && this.threshold == threshold && history == []
      ensures consecutiveFailures == 0
    {
      this.threshold := threshold;
      consecutiveFailures := 0;
      history := [];
    }

    method RecordFailure() returns (trips: bool)
      requires Valid()
      modifies this
      ensures Valid() && history == old(history) + [TransientFailure]
      ensures trips <==> Streak(history) >= threshold
    {
      consecutiveFailures := consecutiveFailures + 1;
      history := history + [TransientFailure];
      trips := consecutiveFailures >= threshold;
    }

    method RecordSuccess(ghost outcome: Outcome)
      requires Valid() && Resets(outcome)
      modifies this
      ensures Valid() && history == old(history) + [outcome] && consecutiveFailures == 0
    {
      consecutiveFailures := 0;
      history := history + [outcome];
    }
  }
}
