/** What holds in every reachable state: the shape and ancestry of every
    published record, and what each program counter knows about its message. */
module Invariant {
  import opened Model
  import opened Failures
  import opened EditsTable
  import opened Pipeline

  // --------------------------------------------------------------- structure

  ghost predicate TopicOk(t: Topic) {
    |t.committed| == |t.parts| && forall p | 0 <= p < |t.parts| :: t.committed[p] <= |t.parts[p]|
  }

  /** Nothing a step does is ever taken back: records stay where they are, rows
      stay, and a classified row stays classified. */
  ghost predicate Extends(s: State, s': State) {
    && (forall c | Exists(s, c) :: Exists(s', c) && At(s', c) == At(s, c))
    && (forall id | id in s.table :: id in s'.table &&
                                     (s.table[id].status == Classified ==> s'.table[id].status == Classified))
    && s.clock <= s'.clock && s.stamps <= s'.stamps && s.skipped <= s'.skipped
  }

  // ---------------------------------------------------------------- envelopes

  /** What a topic holds: the attempt bounds, and which members come together. */
  ghost predicate Shape(cfg: Config, t: TopicName, env: Envelope) {
    && env.schema == Good(ENVELOPE_SCHEMA) && env.firstFailedAt.Some?
    && env.attempts.Good? && env.attempts.value >= 1
    && match t
       case Raw => false
       case Retry =>
         env.reason == TransientExhausted && env.source != FromSweeper && env.edit.Good? &&
         env.raw.None? && env.notBefore.Good? && env.attempts.value <= cfg.maxRetryPasses
       case Dlq =>
         env.notBefore.Absent? &&
         if env.reason == Malformed then
           env.edit.Absent? && env.raw.Some? && env.attempts.value == 1 && env.source != FromSweeper
         else
           env.edit.Good? && env.raw.None? && env.reason != OtherReason &&
           (env.reason == RetriesExhausted ==>
              env.attempts.value == cfg.maxRetryPasses + 1 && env.source != FromSweeper) &&
           (env.reason == TransientExhausted ==> env.source == FromSweeper)
  }

  /** How an envelope on `t` follows from the record its `kafka` member names. */
  ghost predicate Follows(cfg: Config, t: TopicName, env: Envelope, src: Payload)
    requires env.attempts.Good? && env.attempts.value >= 1
  {
    match env.source
    case FromWorker =>
      env.kafka.topic == Raw && env.firstFailedAt == Some(env.lastFailedAt) &&
      if env.reason == Malformed then env.raw == Some(src)
      else src.EditJson? && env.edit == Good(src.edit) && env.attempts.value == 1
    case FromRetrier =>
      env.kafka.topic == Retry &&
      if env.reason == Malformed then env.raw == Some(src)
      else
        && src.EnvelopeJson? && env.edit == src.env.edit && env.firstFailedAt == src.env.firstFailedAt
        && src.env.lastFailedAt <= env.lastFailedAt
        && src.env.attempts == Good(env.attempts.value - (if env.reason == ParseFailed then 0 else 1))
        && (t == Retry ==> env.notBefore.Good? && src.env.notBefore.Good? &&
                           env.notBefore.value >= src.env.notBefore.value + RetryDelay(cfg, env.attempts.value))
    case FromSweeper =>
      && env.kafka.topic == Dlq && src.EnvelopeJson? && src.env.reason != Malformed
      && env.edit == src.env.edit && env.firstFailedAt == src.env.firstFailedAt
      && src.env.lastFailedAt <= env.lastFailedAt
      && src.env.attempts == Good(env.attempts.value - 1)
  }

  ghost predicate OnRaw(s: State, e: Edit) {
    exists c :: Exists(s, c) && c.topic == Raw && At(s, c).payload == EditJson(e)
  }

  ghost predicate Known(s: State, e: Edit) {
    e.id in s.table && OnRaw(s, e)
  }

  /** The failure window: from the first failure to the latest, both past. */
  ghost predicate Window(env: Envelope, now: int) {
    env.firstFailedAt.Some? && env.firstFailedAt.value <= env.lastFailedAt <= now
  }

  ghost predicate EnvelopeOk(cfg: Config, s: State, t: TopicName, env: Envelope) {
    && Shape(cfg, t, env)
    && Exists(s, env.kafka)
    && Follows(cfg, t, env, At(s, env.kafka).payload)
    && (env.edit.Good? ==> Known(s, env.edit.value))
    && (env.notBefore.Good? ==>
          env.notBefore.value <= env.lastFailedAt + RetryDelay(cfg, env.attempts.value) <= s.clock + cfg.backoffMax)
    && Window(env, s.clock)
  }

  ghost predicate RecordOk(cfg: Config, s: State, c: Coord)
    requires Exists(s, c)
  {
    var r := At(s, c);
    r.stamp < s.stamps &&
    (c.topic != Raw ==>
       r.payload.EnvelopeJson? && EnvelopeOk(cfg, s, c.topic, r.payload.env) &&
       At(s, r.payload.env.kafka).stamp < r.stamp)
  }

  ghost predicate LogsOk(cfg: Config, s: State) {
    forall c {:trigger RecordOk(cfg, s, c)} | Exists(s, c) :: RecordOk(cfg, s, c)
  }

  // --------------------------------------------------------- program counters

  /** Some envelope on a failure topic reports the record at `k`, with a reason
      that fits `outcome`. */
  ghost predicate Reported(s: State, k: Coord, outcome: Outcome) {
    exists c :: Exists(s, c) && c.topic != Raw && At(s, c).payload.EnvelopeJson? &&
                At(s, c).payload.env.kafka == k && Reports(At(s, c).payload.env.reason, outcome)
  }

  predicate Reports(reason: Reason, outcome: Outcome) {
    match outcome
    case Parked => reason == Malformed
    case ParseFailure => reason == ParseFailed
    case TransientFailure => reason == TransientExhausted || reason == RetriesExhausted
    case _ => false
  }

  /** What `outcome` says has become of the message at `k`, durably. */
  ghost predicate Resolved(s: State, role: Role, k: Coord, outcome: Outcome) {
    Exists(s, k) &&
    match outcome
    case Parked => Reported(s, k, outcome)
    case ParseFailure => Reported(s, k, outcome)
    case TransientFailure => Reported(s, k, outcome)
    case _ =>
      var d := Decode(role, At(s, k).payload);
      d.Ok? && d.value.edit.id in s.table && s.table[d.value.edit.id].status == Classified
  }

  ghost predicate InFlight(s: State, role: Role, p: nat) {
    Pending(TopicOf(s, SourceTopic(role)), p)
  }

  ghost predicate JobOk(s: State, role: Role, p: nat, job: Job) {
    InFlight(s, role, p) && Decode(role, At(s, Message(role, s, p)).payload) == Ok(job)
  }

  /** A retrier past its wait is past the envelope's `not_before`. */
  ghost predicate Waited(role: Role, job: Job, now: int) {
    role == Retrier && job.notBefore.Some? ==> job.notBefore.value <= now
  }

  ghost predicate ProcOk(cfg: Config, s: State, role: Role) {
    var pc := ProcOf(s, role).pc;
    match pc
    case Idle => true
    case Ready(p, job) => JobOk(s, role, p, job)
    case Admitted(p, job) => JobOk(s, role, p, job) && Waited(role, job, s.clock)
    case Classifying(p, job) => JobOk(s, role, p, job) && Waited(role, job, s.clock)
    case Saving(p, job, v, _) => JobOk(s, role, p, job) && ValidVerdict(v)
    case Recording(p, job, _, _, _) => JobOk(s, role, p, job) && Waited(role, job, s.clock)
    case Recorded(p, job, _, _) => JobOk(s, role, p, job) && Waited(role, job, s.clock) && job.edit.id in s.table
    case Routed(p, job, kind, _, route) =>
      && JobOk(s, role, p, job) && job.edit.id in s.table
      && FailureAttempts(role, job, kind) >= 1
      && route == RouteOf(cfg, role, job, kind, route.at)
      && route.at <= s.clock && Waited(role, job, route.at)
    case Parking(p, _) => InFlight(s, role, p)
    case Publishing(p, t, env, outcome) =>
      InFlight(s, role, p) && EnvelopeOk(cfg, s, t, env) && env.kafka == Message(role, s, p) &&
      env.source == SourceName(role) && Reports(env.reason, outcome)
    case Committing(p, outcome) => InFlight(s, role, p) && Resolved(s, role, Message(role, s, p), outcome)
    case Settling(p, outcome) =>
      var src := TopicOf(s, SourceTopic(role));
      p < |src.committed| && src.committed[p] >= 1 &&
      Resolved(s, role, Coord(SourceTopic(role), p, src.committed[p] - 1), outcome)
    case Doomed(p) => InFlight(s, role, p)
  }

  ghost predicate SweepJobOk(s: State, p: nat, job: Job) {
    Pending(s.dlq, p) && DecodeDlq(s.dlq.parts[p][s.dlq.committed[p]].payload) == Ok(job)
  }

  /** The record a sweep is working on lies below the run's snapshot. */
  ghost predicate BelowSnapshot(s: State, ends: seq<nat>, p: nat) {
    Pending(s.dlq, p) && p < |ends| && s.dlq.committed[p] < ends[p]
  }

  ghost predicate SweepOk(cfg: Config, s: State) {
    s.sweep.On? ==>
      Snapshot(s.dlq, s.sweep.ends) &&
      match s.sweep.pc
      case Polling => true
      case SweepClassifying(p, job) => BelowSnapshot(s, s.sweep.ends, p) && SweepJobOk(s, p, job)
      case SweepSaving(p, job, v, _) => BelowSnapshot(s, s.sweep.ends, p) && SweepJobOk(s, p, job) && ValidVerdict(v)
      case SweepFailed(p, job, _, _) => BelowSnapshot(s, s.sweep.ends, p) && SweepJobOk(s, p, job)
      case SweepPublishing(p, env) =>
        BelowSnapshot(s, s.sweep.ends, p) && EnvelopeOk(cfg, s, Dlq, env) &&
        env.kafka == Coord(Dlq, p, s.dlq.committed[p]) && env.source == FromSweeper
      case SweepCommitting(p, key) =>
        BelowSnapshot(s, s.sweep.ends, p) && Swept(s, Coord(Dlq, p, s.dlq.committed[p]), key)
  }

  /** What a sweep's disposition of the record at `k` rests on. */
  ghost predicate Swept(s: State, k: Coord, key: SweepKey) {
    Exists(s, k) &&
    match key
    case SkippedOver => true
    case Requeued => exists c :: Exists(s, c) && c.topic == Dlq && RequeueOf(At(s, c).payload, k)
    case Reclassified =>
      var d := DecodeDlq(At(s, k).payload);
      d.Ok? && d.value.edit.id in s.table && s.table[d.value.edit.id].status == Classified
  }

  predicate RequeueOf(value: Payload, k: Coord) {
    value.EnvelopeJson? && value.env.source == FromSweeper && value.env.kafka == k
  }

  /** Only edits that arrived are written, and only valid verdicts. */
  ghost predicate TableOk(s: State) {
    forall i | 0 <= i < |s.writes| ::
      OnRaw(s, s.writes[i].edit) && (s.writes[i].SuccessWrite? ==> ValidVerdict(s.writes[i].verdict))
  }

  ghost predicate Inv(cfg: Config, s: State) {
    && TopicOk(s.raw) && TopicOk(s.retry) && TopicOk(s.dlq)
    && LogsOk(cfg, s) && TableOk(s)
    && ProcOk(cfg, s, Worker) && ProcOk(cfg, s, Retrier) && SweepOk(cfg, s)
  }

  // ------------------------------------------------------------ monotonicity

  lemma KnownStays(s: State, s': State, e: Edit)
    requires Extends(s, s') && OnRaw(s, e)
    ensures OnRaw(s', e)
  {
    var c :| Exists(s, c) && c.topic == Raw && At(s, c).payload == EditJson(e);
    assert Exists(s', c) && At(s', c) == At(s, c);
  }

  lemma EnvelopeStaysOk(cfg: Config, s: State, s': State, t: TopicName, env: Envelope)
    requires Extends(s, s') && EnvelopeOk(cfg, s, t, env)
    ensures EnvelopeOk(cfg, s', t, env)
  {
    assert Exists(s', env.kafka) && At(s', env.kafka) == At(s, env.kafka);
    if env.edit.Good? {
      KnownStays(s, s', env.edit.value);
    }
  }

  lemma ResolvedStays(s: State, s': State, role: Role, k: Coord, outcome: Outcome)
    requires Extends(s, s') && Resolved(s, role, k, outcome)
    ensures Resolved(s', role, k, outcome)
  {
    assert At(s', k) == At(s, k);
    if outcome == Parked || outcome == ParseFailure || outcome == TransientFailure {
      var c :| Exists(s, c) && c.topic != Raw && At(s, c).payload.EnvelopeJson? &&
               At(s, c).payload.env.kafka == k && Reports(At(s, c).payload.env.reason, outcome);
      assert Exists(s', c) && At(s', c) == At(s, c);
    }
  }

  lemma RecordStaysOk(cfg: Config, s: State, s': State, c: Coord)
    requires Extends(s, s') && Exists(s, c) && RecordOk(cfg, s, c)
    ensures Exists(s', c) && RecordOk(cfg, s', c)
  {
    assert At(s', c) == At(s, c);
    if c.topic != Raw {
      var env := At(s, c).payload.env;
      EnvelopeStaysOk(cfg, s, s', c.topic, env);
      assert At(s', env.kafka) == At(s, env.kafka);
    }
  }

  /** The message in flight is the same record as before. */
  lemma MessageStays(s: State, s': State, role: Role, p: nat)
    requires Extends(s, s') && InFlight(s, role, p)
    requires TopicOf(s', SourceTopic(role)).committed == TopicOf(s, SourceTopic(role)).committed
    ensures InFlight(s', role, p) && Message(role, s', p) == Message(role, s, p)
    ensures Exists(s, Message(role, s, p)) && Exists(s', Message(role, s, p))
    ensures At(s', Message(role, s, p)) == At(s, Message(role, s, p))
  {
    assert Exists(s, Message(role, s, p));
  }

  /** A process that does not act keeps what it knows. */
  lemma ProcFrame(cfg: Config, s: State, s': State, role: Role)
    requires Extends(s, s') && ProcOk(cfg, s, role)
    requires ProcOf(s', role) == ProcOf(s, role)
    requires TopicOf(s', SourceTopic(role)).committed == TopicOf(s, SourceTopic(role)).committed
    ensures ProcOk(cfg, s', role)
  {
    var src, pc := SourceTopic(role), ProcOf(s, role).pc;
    if pc.Settling? {
      ResolvedStays(s, s', role, Coord(src, pc.part, TopicOf(s, src).committed[pc.part] - 1), pc.outcome);
    } else if !pc.Idle? {
      MessageStays(s, s', role, pc.part);
      if pc.Publishing? {
        EnvelopeStaysOk(cfg, s, s', pc.topic, pc.env);
      } else if pc.Committing? {
        ResolvedStays(s, s', role, Message(role, s, pc.part), pc.outcome);
      }
    }
  }

  lemma SweepFrame(cfg: Config, s: State, s': State)
    requires Extends(s, s') && SweepOk(cfg, s) && TopicOk(s.dlq) && TopicOk(s'.dlq)
    requires s'.sweep == s.sweep && s'.dlq.committed == s.dlq.committed
    ensures SweepOk(cfg, s')
  {
    if s.sweep.On? {
      forall p: nat, o: nat | InLog(s.dlq, p, o)
        ensures InLog(s'.dlq, p, o) && s'.dlq.parts[p][o] == s.dlq.parts[p][o]
      {
        assert Exists(s, Coord(Dlq, p, o));
        assert At(s', Coord(Dlq, p, o)) == At(s, Coord(Dlq, p, o));
      }
      GrowsWithin(s.dlq, s'.dlq, s.sweep.ends);
      match s.sweep.pc
      case SweepPublishing(p, env) => EnvelopeStaysOk(cfg, s, s', Dlq, env);
      case SweepCommitting(p, key) => SweptStays(s, s', Coord(Dlq, p, s.dlq.committed[p]), key);
      case _ =>
    }
  }

  lemma GrowsWithin(t: Topic, t': Topic, ends: seq<nat>)
    requires TopicOk(t) && TopicOk(t') && t'.committed == t.committed && Snapshot(t, ends)
    requires forall p: nat, o: nat | InLog(t, p, o) :: InLog(t', p, o)
    ensures Snapshot(t', ends)
  {
    forall p | 0 <= p < |ends| ensures ends[p] <= |t'.parts[p]| {
      if |t.parts[p]| > 0 {
        assert InLog(t, p, |t.parts[p]| - 1);
      }
    }
  }

  lemma SweptStays(s: State, s': State, k: Coord, key: SweepKey)
    requires Extends(s, s') && Swept(s, k, key)
    ensures Swept(s', k, key)
  {
    assert At(s', k) == At(s, k);
    if key == Requeued {
      var c :| Exists(s, c) && c.topic == Dlq && RequeueOf(At(s, c).payload, k);
      assert Exists(s', c) && At(s', c) == At(s, c);
    }
  }
}
