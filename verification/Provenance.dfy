/** Where an envelope comes from: following `kafka` back leads through strictly
    earlier records to the raw record, and tells its attempts and its delays. */
module Provenance {
  import opened Model
  import opened Failures
  import opened EditsTable
  import opened Pipeline
  import opened Invariant
  import opened Preservation

  function EnvelopeAt(s: State, c: Coord): Envelope
    requires Exists(s, c) && At(s, c).payload.EnvelopeJson?
  {
    At(s, c).payload.env
  }

  /** The records met on the way back from `c`, `c` first. */
  ghost function Trail(cfg: Config, s: State, c: Coord): (t: seq<Coord>)
    requires LogsOk(cfg, s) && Exists(s, c)
    ensures |t| >= 1 && t[0] == c
    decreases At(s, c).stamp
  {
    assert RecordOk(cfg, s, c);
    if c.topic == Raw then [c] else [c] + Trail(cfg, s, EnvelopeAt(s, c).kafka)
  }

  ghost predicate Envelopes(s: State, t: seq<Coord>) {
    forall i | 0 <= i < |t| ::
      Exists(s, t[i]) && (t[i].topic == Raw <==> i == |t| - 1) &&
      (t[i].topic != Raw ==> At(s, t[i]).payload.EnvelopeJson?)
  }

  /** The way back visits strictly earlier records and ends at a raw record. */
  lemma {:induction false} TrailEndsAtRaw(cfg: Config, s: State, c: Coord)
    requires LogsOk(cfg, s) && Exists(s, c)
    ensures var t := Trail(cfg, s, c);
            Envelopes(s, t) && forall i, j | 0 <= i < j < |t| :: At(s, t[j]).stamp < At(s, t[i]).stamp
    decreases At(s, c).stamp
  {
    assert RecordOk(cfg, s, c);
    if c.topic != Raw {
      var k := EnvelopeAt(s, c).kafka;
      TrailEndsAtRaw(cfg, s, k);
      var t, rest := Trail(cfg, s, c), Trail(cfg, s, k);
      assert forall i | 1 <= i < |t| :: t[i] == rest[i - 1];
    }
  }

  /** A hop that counts as an attempt: a pass the retrier saw fail for lack of the
      model, or a sweep. */
  predicate CountsAsAttempt(env: Envelope) {
    env.source == FromSweeper || (env.source == FromRetrier && env.reason != ParseFailed && env.reason != Malformed)
  }

  function Attempts(s: State, t: seq<Coord>): nat
    requires forall i | 0 <= i < |t| :: Exists(s, t[i])
  {
    if t == [] then 0
    else
      (if At(s, t[0]).payload.EnvelopeJson? && CountsAsAttempt(EnvelopeAt(s, t[0])) then 1 else 0)
      + Attempts(s, t[1..])
  }

  /** What stays the same along a trail that starts with a non-malformed envelope:
      the edit all the way to the raw record, and the time of the first failure. */
  ghost predicate SameStory(s: State, t: seq<Coord>, env: Envelope) {
    Envelopes(s, t) && env.edit.Good? &&
    forall i | 0 <= i < |t| ::
      if i == |t| - 1 then At(s, t[i]).payload == EditJson(env.edit.value)
      else
        var e := At(s, t[i]).payload.env;
        e.reason != Malformed && e.edit == env.edit && e.firstFailedAt == env.firstFailedAt
  }

  lemma {:induction false} TrailTellsTheStory(cfg: Config, s: State, c: Coord)
    requires LogsOk(cfg, s) && Exists(s, c) && c.topic != Raw
    requires At(s, c).payload.EnvelopeJson? && EnvelopeAt(s, c).reason != Malformed
    ensures var t := Trail(cfg, s, c);
            SameStory(s, t, EnvelopeAt(s, c)) &&
            EnvelopeAt(s, c).attempts == Good(1 + Attempts(s, t))
    decreases At(s, c).stamp
  {
    assert RecordOk(cfg, s, c);
    var env := EnvelopeAt(s, c);
    TrailEndsAtRaw(cfg, s, c);
    var k := env.kafka;
    var t, rest := Trail(cfg, s, c), Trail(cfg, s, k);
    assert t[1..] == rest;
    assert forall i | 1 <= i < |t| :: t[i] == rest[i - 1];
    TrailEndsAtRaw(cfg, s, k);
    if k.topic == Raw {
      assert rest == [k] && rest[1..] == [];
    } else {
      assert RecordOk(cfg, s, k);
      TrailTellsTheStory(cfg, s, k);
    }
  }

  /** The failure window of a chain opens with the chain's first envelope and only
      widens from hop to hop. */
  lemma {:induction false} WindowSpansChain(cfg: Config, s: State, c: Coord)
    requires LogsOk(cfg, s) && Exists(s, c) && c.topic != Raw
    requires At(s, c).payload.EnvelopeJson? && EnvelopeAt(s, c).reason != Malformed
    ensures var t := Trail(cfg, s, c);
            Envelopes(s, t) && |t| >= 2 &&
            EnvelopeAt(s, c).firstFailedAt == Some(EnvelopeAt(s, t[|t| - 2]).lastFailedAt) &&
            EnvelopeAt(s, c).lastFailedAt <= s.clock &&
            forall i | 0 < i < |t| - 1 :: EnvelopeAt(s, t[i]).lastFailedAt <= EnvelopeAt(s, t[i - 1]).lastFailedAt
    decreases At(s, c).stamp
  {
    assert RecordOk(cfg, s, c);
    TrailEndsAtRaw(cfg, s, c);
    var k := EnvelopeAt(s, c).kafka;
    var t, rest := Trail(cfg, s, c), Trail(cfg, s, k);
    assert forall i | 1 <= i < |t| :: t[i] == rest[i - 1];
    if k.topic == Raw {
      assert rest == [k];
    } else {
      assert RecordOk(cfg, s, k);
      WindowSpansChain(cfg, s, k);
    }
  }

  /** One-way flow: parked bytes are never republished, and nothing on its way
      through the retry topic has been on the DLQ. */
  lemma {:induction false} FlowsOneWay(cfg: Config, s: State, c: Coord)
    requires LogsOk(cfg, s) && Exists(s, c)
    ensures var t := Trail(cfg, s, c);
            Envelopes(s, t) &&
            (forall i | 1 <= i < |t| - 1 :: EnvelopeAt(s, t[i]).reason != Malformed) &&
            (forall i, j | 0 <= i < j < |t| :: t[i].topic == Retry ==> t[j].topic != Dlq)
    decreases At(s, c).stamp
  {
    TrailEndsAtRaw(cfg, s, c);
    assert RecordOk(cfg, s, c);
    if c.topic != Raw {
      var k := EnvelopeAt(s, c).kafka;
      FlowsOneWay(cfg, s, k);
      var t, rest := Trail(cfg, s, c), Trail(cfg, s, k);
      assert forall i | 1 <= i < |t| :: t[i] == rest[i - 1];
      assert RecordOk(cfg, s, k);
      if c.topic == Retry && k.topic == Retry {
        assert rest[0] == k;
      }
    }
  }

  /** The three theorems above hold in every reachable state. */
  lemma EveryEnvelopeHasATrail(cfg: Config, start: State, es: seq<Event>, s: State, c: Coord)
    requires Reaches(cfg, start, es, s) && Exists(s, c) && c.topic != Raw
    ensures LogsOk(cfg, s) && At(s, c).payload.EnvelopeJson?
    ensures var t := Trail(cfg, s, c);
            var env := EnvelopeAt(s, c);
            Envelopes(s, t) && |t| >= 2 &&
            if env.reason == Malformed then env.raw == Some(At(s, t[1]).payload)
            else
              SameStory(s, t, env) && env.attempts == Good(1 + Attempts(s, t)) && env.edit.value.id in s.table &&
              env.firstFailedAt == Some(EnvelopeAt(s, t[|t| - 2]).lastFailedAt)
  {
    ReachableInv(cfg, start, es, s);
    assert RecordOk(cfg, s, c);
    TrailEndsAtRaw(cfg, s, c);
    if EnvelopeAt(s, c).reason != Malformed {
      TrailTellsTheStory(cfg, s, c);
      WindowSpansChain(cfg, s, c);
    }
  }

  // ---------------------------------------------------- bounds and agreement

  /** Attempt bounds, and the agreement of producer and consumers: the retrier
      accepts every envelope on its topic, and the sweeper classifies every DLQ
      envelope that carries an edit. */
  lemma EnvelopesAreConsumable(cfg: Config, start: State, es: seq<Event>, s: State, c: Coord)
    requires Reaches(cfg, start, es, s) && Exists(s, c) && c.topic != Raw
    ensures At(s, c).payload.EnvelopeJson?
    ensures var env := EnvelopeAt(s, c);
            env.attempts.Good? &&
            (c.topic == Retry ==>
               1 <= env.attempts.value <= cfg.maxRetryPasses &&
               DecodeRetry(At(s, c).payload).Ok?) &&
            (c.topic == Dlq && env.reason == RetriesExhausted ==> env.attempts.value == cfg.maxRetryPasses + 1) &&
            (c.topic == Dlq ==> (DecodeDlq(At(s, c).payload).Ok? <==> env.edit.Good?)) &&
            (c.topic == Dlq ==> (env.edit.Good? <==> env.reason != Malformed))
  {
    ReachableInv(cfg, start, es, s);
    assert RecordOk(cfg, s, c);
  }

  /** So the retrier never parks a message for what it is: polling always yields
      a job. */
  lemma RetrierNeverParksOnDecode(cfg: Config, start: State, es: seq<Event>, s: State, p: nat, s': State)
    requires Reaches(cfg, start, es, s) && Step(cfg, s, Do(Retrier, Poll(p))) == Some(s')
    ensures s'.retrier.pc.Ready?
  {
    ReachableInv(cfg, start, es, s);
    assert RecordOk(cfg, s, Coord(Retry, p, s.retry.committed[p]));
  }

  /** Only the database can make the retrier park a message: a step that takes it
      to the DLQ's doorstep is a write the table refuses. */
  lemma RetrierParksOnlyRefusedData(cfg: Config, start: State, es: seq<Event>, s: State, e: Event, s': State)
    requires Reaches(cfg, start, es, s) && Step(cfg, s, e) == Some(s')
    requires s'.retrier.pc.Parking? && !s.retrier.pc.Parking?
    ensures e.Do? && e.role == Retrier
    ensures (e.action.Save? && e.action.db.DataError?) || (e.action.RecordFailed? && e.action.db.DataError?)
  {
    match e
    case Do(role, a) =>
      if role == Worker {
        WorkerLeavesRetrier(cfg, s, a, s');
      } else if a.Poll? {
        RetrierNeverParksOnDecode(cfg, start, es, s, a.part, s');
      } else {
        ParksOnRefusal(cfg, s, a, s');
      }
    case Move(m) => SweepLeavesRetrier(s, m, s');
    case _ =>
  }

  lemma WorkerLeavesRetrier(cfg: Config, s: State, a: Action, s': State)
    requires Act(cfg, s, Worker, a) == Some(s')
    ensures s'.retrier == s.retrier
  {
  }

  lemma SweepLeavesRetrier(s: State, m: SweepMove, s': State)
    requires Sweeping(s, m) == Some(s')
    ensures s'.retrier == s.retrier
  {
  }

  lemma ParksOnRefusal(cfg: Config, s: State, a: Action, s': State)
    requires Act(cfg, s, Retrier, a) == Some(s') && !a.Poll? && s'.retrier.pc.Parking?
    ensures (a.Save? && a.db.DataError?) || (a.RecordFailed? && a.db.DataError?)
  {
  }

  // ------------------------------------------------------------------ pacing

  /** In the run `es` the worker chose the route of a failed pass over the raw
      record at `k` at time `t`. */
  ghost predicate ChosenAt(cfg: Config, start: State, es: seq<Event>, k: Coord, t: int) {
    exists i: nat :: i < |es| && ChosenBy(cfg, start, es, i, k, t)
  }

  ghost predicate ChosenBy(cfg: Config, start: State, es: seq<Event>, i: nat, k: Coord, t: int)
    requires i < |es|
  {
    var before := Exec(cfg, start, es[..i]);
    es[i] == Do(Worker, ChooseRoute) && before.Some? && before.value.clock == t &&
    var pc := before.value.worker.pc;
    pc.Recorded? && pc.part < |before.value.raw.committed| && Message(Worker, before.value, pc.part) == k
  }

  lemma ChosenStays(cfg: Config, start: State, es: seq<Event>, e: Event, k: Coord, t: int)
    requires ChosenAt(cfg, start, es, k, t)
    ensures ChosenAt(cfg, start, es + [e], k, t)
  {
    var i: nat :| i < |es| && ChosenBy(cfg, start, es, i, k, t);
    assert (es + [e])[..i] == es[..i];
    assert ChosenBy(cfg, start, es + [e], i, k, t);
  }

  /** The time a first envelope's route was chosen at, read off its `not_before`. */
  function ChoiceTime(cfg: Config, notBefore: int): int {
    notBefore - RetryDelay(cfg, 1)
  }

  /** The message that the worker envelope `env` reports was routed by this run,
      one first delay before the envelope's `not_before`. */
  ghost predicate RoutedInRun(cfg: Config, start: State, es: seq<Event>, env: Envelope) {
    env.source == FromWorker && env.notBefore.Good? ==>
      ChosenAt(cfg, start, es, env.kafka, ChoiceTime(cfg, env.notBefore.value))
  }

  ghost predicate LogRouted(cfg: Config, start: State, es: seq<Event>, s: State) {
    forall c {:trigger At(s, c)} | Exists(s, c) && c.topic == Retry && At(s, c).payload.EnvelopeJson? ::
      RoutedInRun(cfg, start, es, EnvelopeAt(s, c))
  }

  ghost predicate WorkerRouted(cfg: Config, start: State, es: seq<Event>, s: State) {
    match s.worker.pc
    case Routed(p, job, _, _, route) =>
      p < |s.raw.committed| && route.notBefore.Some? ==>
        ChosenAt(cfg, start, es, Message(Worker, s, p), ChoiceTime(cfg, route.notBefore.value))
    case Publishing(_, _, env, _) => RoutedInRun(cfg, start, es, env)
    case _ => true
  }

  lemma EnvelopeRoutedStays(cfg: Config, start: State, es: seq<Event>, e: Event, env: Envelope)
    requires RoutedInRun(cfg, start, es, env)
    ensures RoutedInRun(cfg, start, es + [e], env)
  {
    if env.source == FromWorker && env.notBefore.Good? {
      ChosenStays(cfg, start, es, e, env.kafka, ChoiceTime(cfg, env.notBefore.value));
    }
  }

  /** A step puts at most one record on the retry topic: what its actor was about
      to publish. */
  lemma RetryGrowth(cfg: Config, s: State, e: Event, s': State, c: Coord)
    requires Inv(cfg, s) && Step(cfg, s, e) == Some(s') && Exists(s', c) && c.topic == Retry && !Exists(s, c)
    ensures e.Do? && e.action.Publish? && ProcOf(s, e.role).pc.Publishing?
    ensures At(s', c).payload == EnvelopeJson(ProcOf(s, e.role).pc.env)
    ensures ProcOf(s, e.role).pc.env.source == SourceName(e.role)
  {
    match e
    case Do(role, a) =>
      if a.Publish? {
        var pc := ProcOf(s, role).pc;
        PublishedPc(cfg, s, role, a.part, s');
        AppendExtends(s, s', pc.topic, a.part, EnvelopeJson(pc.env));
        assert ProcOk(cfg, s, role);
      } else {
        ActLeavesRetry(cfg, s, role, a, s');
      }
    case Move(m) => SweepLeavesRetry(s, m, s');
    case _ =>
  }

  lemma ActLeavesRetry(cfg: Config, s: State, role: Role, a: Action, s': State)
    requires Act(cfg, s, role, a) == Some(s') && !a.Publish?
    ensures s'.retry.parts == s.retry.parts
  {
  }

  lemma SweepLeavesRetry(s: State, m: SweepMove, s': State)
    requires Sweeping(s, m) == Some(s')
    ensures s'.retry == s.retry
  {
  }

  lemma LogRoutedStep(cfg: Config, start: State, es: seq<Event>, s: State, e: Event, s': State)
    requires Inv(cfg, s) && Step(cfg, s, e) == Some(s') && Extends(s, s')
    requires LogRouted(cfg, start, es, s) && WorkerRouted(cfg, start, es, s)
    ensures LogRouted(cfg, start, es + [e], s')
  {
    forall c {:trigger At(s', c)} | Exists(s', c) && c.topic == Retry && At(s', c).payload.EnvelopeJson?
      ensures RoutedInRun(cfg, start, es + [e], EnvelopeAt(s', c))
    {
      if Exists(s, c) {
        assert At(s', c) == At(s, c);
        EnvelopeRoutedStays(cfg, start, es, e, EnvelopeAt(s, c));
      } else {
        RetryGrowth(cfg, s, e, s', c);
        if e.role == Worker {
          EnvelopeRoutedStays(cfg, start, es, e, s.worker.pc.env);
        }
      }
    }
  }

  /** The worker's counter and commits change only by its own steps. */
  lemma WorkerElsewhere(cfg: Config, s: State, e: Event, s': State)
    requires Step(cfg, s, e) == Some(s') && !(e.Do? && e.role == Worker) && e != Crash(Worker)
    ensures s'.worker == s.worker && s'.raw.committed == s.raw.committed
  {
    if e.Do? {
      RetrierLeavesWorker(cfg, s, e.action, s');
    } else if e.Move? {
      SweepLeavesWorker(s, e.move, s');
    }
  }

  lemma RetrierLeavesWorker(cfg: Config, s: State, a: Action, s': State)
    requires Act(cfg, s, Retrier, a) == Some(s')
    ensures s'.worker == s.worker && s'.raw.committed == s.raw.committed
  {
  }

  lemma SweepLeavesWorker(s: State, m: SweepMove, s': State)
    requires Sweeping(s, m) == Some(s')
    ensures s'.worker == s.worker && s'.raw == s.raw
  {
  }

  lemma WorkerRoutedStays(cfg: Config, start: State, es: seq<Event>, e: Event, s: State, s': State)
    requires WorkerRouted(cfg, start, es, s) && s'.worker == s.worker && s'.raw.committed == s.raw.committed
    ensures WorkerRouted(cfg, start, es + [e], s')
  {
    var pc := s.worker.pc;
    if pc.Publishing? {
      EnvelopeRoutedStays(cfg, start, es, e, pc.env);
    } else if pc.Routed? && pc.part < |s.raw.committed| && pc.route.notBefore.Some? {
      ChosenStays(cfg, start, es, e, Message(Worker, s, pc.part), ChoiceTime(cfg, pc.route.notBefore.value));
    }
  }

  lemma ChoiceIsInRun(cfg: Config, start: State, es: seq<Event>, s: State, s': State)
    requires Exec(cfg, start, es) == Some(s) && OnChoose(cfg, s, Worker) == Some(s')
    requires s.worker.pc.Recorded? ==> s.worker.pc.job.attempts == 1
    ensures WorkerRouted(cfg, start, es + [Do(Worker, ChooseRoute)], s')
  {
    var all, p := es + [Do(Worker, ChooseRoute)], s.worker.pc.part;
    if p < |s.raw.committed| {
      assert all[..|es|] == es;
      assert ChosenBy(cfg, start, all, |es|, Message(Worker, s, p), s.clock);
    }
  }

  lemma WrapKeepsRoute(cfg: Config, start: State, es: seq<Event>, e: Event, s: State, s': State)
    requires OnWrap(s, Worker) == Some(s') && WorkerRouted(cfg, start, es, s)
    ensures WorkerRouted(cfg, start, es + [e], s')
  {
    EnvelopeRoutedStays(cfg, start, es, e, s'.worker.pc.env);
  }

  lemma WorkerRoutedStep(cfg: Config, start: State, es: seq<Event>, s: State, e: Event, s': State)
    requires Inv(cfg, s) && Exec(cfg, start, es) == Some(s) && Step(cfg, s, e) == Some(s')
    requires WorkerRouted(cfg, start, es, s)
    ensures WorkerRouted(cfg, start, es + [e], s')
  {
    if e == Do(Worker, ChooseRoute) {
      JobOnRaw(cfg, s, Worker, s.worker.pc.part, s.worker.pc.job);
      ChoiceIsInRun(cfg, start, es, s, s');
    } else if e == Do(Worker, Wrap) {
      WrapKeepsRoute(cfg, start, es, e, s, s');
    } else if e.Do? && e.role == Worker {
      OtherActsLeaveNoRoute(cfg, s, e.action, s');
    } else if e != Crash(Worker) {
      WorkerElsewhere(cfg, s, e, s');
      WorkerRoutedStays(cfg, start, es, e, s, s');
    }
  }

  lemma OtherActsLeaveNoRoute(cfg: Config, s: State, a: Action, s': State)
    requires Act(cfg, s, Worker, a) == Some(s') && !a.ChooseRoute? && !a.Wrap?
    ensures !s'.worker.pc.Routed? && !s'.worker.pc.Publishing?
  {
  }

  lemma {:induction false} RunRouted(cfg: Config, start: State, es: seq<Event>, s: State)
    requires Inv(cfg, start) && Exec(cfg, start, es) == Some(s)
    requires LogRouted(cfg, start, [], start) && WorkerRouted(cfg, start, [], start)
    ensures LogRouted(cfg, start, es, s) && WorkerRouted(cfg, start, es, s)
    decreases |es|
  {
    if es != [] {
      var n := |es| - 1;
      var m := Exec(cfg, start, es[..n]).value;
      RunRouted(cfg, start, es[..n], m);
      RoutedStep(cfg, start, es[..n], m, es[n], s);
      assert es[..n] + [es[n]] == es;
    }
  }

  lemma RoutedStep(cfg: Config, start: State, es: seq<Event>, s: State, e: Event, s': State)
    requires Inv(cfg, start) && Exec(cfg, start, es) == Some(s) && Step(cfg, s, e) == Some(s')
    requires LogRouted(cfg, start, es, s) && WorkerRouted(cfg, start, es, s)
    ensures LogRouted(cfg, start, es + [e], s') && WorkerRouted(cfg, start, es + [e], s')
  {
    RunKeepsInv(cfg, start, es, s);
    StepKeepsInv(cfg, s, e, s');
    LogRoutedStep(cfg, start, es, s, e, s');
    WorkerRoutedStep(cfg, start, es, s, e, s');
  }

  lemma ReachableRouted(cfg: Config, start: State, es: seq<Event>, s: State)
    requires Reaches(cfg, start, es, s)
    ensures LogRouted(cfg, start, es, s) && LogsOk(cfg, s)
  {
    var a: nat, b: nat, c: nat, now: int :| start == Initial(a, b, c, now);
    InitialInv(cfg, a, b, c, now);
    RunRouted(cfg, start, es, s);
    RunKeepsInv(cfg, start, es, s);
  }

  /** Along a retry chain each hop adds its delay to the one before. */
  lemma {:induction false} ChainIsPaced(cfg: Config, s: State, c: Coord)
    requires LogsOk(cfg, s) && Exists(s, c) && c.topic == Retry
    ensures var t := Trail(cfg, s, c);
            Envelopes(s, t) && |t| >= 2 &&
            var first := EnvelopeAt(s, t[|t| - 2]);
            t[|t| - 2].topic == Retry && first.source == FromWorker && first.notBefore.Good? &&
            var env := EnvelopeAt(s, c);
            env.attempts == Good(|t| - 1) && env.notBefore.Good? && env.edit.Good? && first.edit == env.edit &&
            env.notBefore.value >= ChoiceTime(cfg, first.notBefore.value) + BackoffTotal(cfg, |t| - 1)
    decreases At(s, c).stamp
  {
    TrailEndsAtRaw(cfg, s, c);
    assert RecordOk(cfg, s, c);
    var k := EnvelopeAt(s, c).kafka;
    assert RecordOk(cfg, s, k);
    var t, rest := Trail(cfg, s, c), Trail(cfg, s, k);
    assert forall i | 1 <= i < |t| :: t[i] == rest[i - 1];
    if k.topic == Raw {
      assert rest == [k];
      assert BackoffTotal(cfg, 1) == BackoffTotal(cfg, 0) + RetryDelay(cfg, 1);
    } else {
      ChainIsPaced(cfg, s, k);
    }
  }

  /** A retry record is due no earlier than the backoff of all its passes after
      the time at which the worker's pass over the raw record at the root of its
      own chain was routed in this run. */
  lemma RecordIsPaced(cfg: Config, start: State, es: seq<Event>, s: State, c: Coord)
    requires LogsOk(cfg, s) && LogRouted(cfg, start, es, s) && Exists(s, c) && c.topic == Retry
    ensures At(s, c).payload.EnvelopeJson?
    ensures var env, t := EnvelopeAt(s, c), Trail(cfg, s, c);
            Envelopes(s, t) && |t| >= 2 && env.attempts == Good(|t| - 1) && env.notBefore.Good? && env.edit.Good? &&
            At(s, t[|t| - 1]).payload == EditJson(env.edit.value) &&
            var first := EnvelopeAt(s, t[|t| - 2]);
            first.notBefore.Good? &&
            ChosenAt(cfg, start, es, t[|t| - 1], ChoiceTime(cfg, first.notBefore.value)) &&
            env.notBefore.value >= ChoiceTime(cfg, first.notBefore.value) + BackoffTotal(cfg, |t| - 1)
  {
    assert RecordOk(cfg, s, c);
    ChainIsPaced(cfg, s, c);
    RootIsItsEdit(cfg, s, c);
    var t := Trail(cfg, s, c);
    RootOfChain(cfg, s, c, |t| - 2);
    assert RoutedInRun(cfg, start, es, EnvelopeAt(s, t[|t| - 2]));
  }

  lemma RootIsItsEdit(cfg: Config, s: State, c: Coord)
    requires LogsOk(cfg, s) && Exists(s, c) && c.topic == Retry
    ensures var t := Trail(cfg, s, c);
            Envelopes(s, t) && At(s, c).payload.EnvelopeJson? && EnvelopeAt(s, c).edit.Good? &&
            At(s, t[|t| - 1]).payload == EditJson(EnvelopeAt(s, c).edit.value)
  {
    assert RecordOk(cfg, s, c);
    TrailTellsTheStory(cfg, s, c);
  }

  /** Consecutive records of a trail are linked by `kafka`. */
  lemma {:induction false} RootOfChain(cfg: Config, s: State, c: Coord, i: nat)
    requires LogsOk(cfg, s) && Exists(s, c) && i < |Trail(cfg, s, c)| - 1
    ensures var t := Trail(cfg, s, c);
            Exists(s, t[i]) && At(s, t[i]).payload.EnvelopeJson? && t[i + 1] == EnvelopeAt(s, t[i]).kafka
    decreases i
  {
    assert RecordOk(cfg, s, c);
    if i > 0 {
      RootOfChain(cfg, s, EnvelopeAt(s, c).kafka, i - 1);
    }
  }

  /** Pacing of a whole chain: the n-th retrier pass over a message starts no
      earlier than the first n delays after the time at which, in this very run,
      the worker's pass over the raw record at the root of the message's own chain
      chose its route. */
  lemma NthPassIsPaced(cfg: Config, start: State, es: seq<Event>, s: State, p: nat, job: Job)
    requires Reaches(cfg, start, es, s)
    requires s.retrier.pc == Admitted(p, job) && Step(cfg, s, Do(Retrier, StartPass)).Some?
    ensures LogsOk(cfg, s) && InFlight(s, Retrier, p) && Exists(s, Message(Retrier, s, p))
    ensures var t := Trail(cfg, s, Message(Retrier, s, p));
            Envelopes(s, t) && |t| == job.attempts + 1 >= 2 && At(s, t[|t| - 1]).payload == EditJson(job.edit) &&
            var first := EnvelopeAt(s, t[|t| - 2]);
            first.notBefore.Good? &&
            ChosenAt(cfg, start, es, t[|t| - 1], ChoiceTime(cfg, first.notBefore.value)) &&
            s.clock >= ChoiceTime(cfg, first.notBefore.value) + BackoffTotal(cfg, job.attempts)
  {
    ReachableRouted(cfg, start, es, s);
    AdmittedMessage(cfg, start, es, s, p, job);
    RecordIsPaced(cfg, start, es, s, Message(Retrier, s, p));
  }

  /** An admitted message is its job, and due. */
  lemma AdmittedMessage(cfg: Config, start: State, es: seq<Event>, s: State, p: nat, job: Job)
    requires Reaches(cfg, start, es, s) && s.retrier.pc == Admitted(p, job)
    ensures InFlight(s, Retrier, p) && Exists(s, Message(Retrier, s, p))
    ensures var value := At(s, Message(Retrier, s, p)).payload;
            value.EnvelopeJson? && value.env.attempts == Good(job.attempts) && job.attempts >= 1 &&
            value.env.edit == Good(job.edit) && value.env.notBefore.Good? && value.env.notBefore.value <= s.clock
  {
    ReachableInv(cfg, start, es, s);
    var c := Message(Retrier, s, p);
    assert Exists(s, c) && RecordOk(cfg, s, c) && DecodeRetry(At(s, c).payload) == Ok(job);
  }

  /** And a message is never waited for longer than the delay of its last failure,
      so never longer than the cap. */
  lemma WaitIsCapped(cfg: Config, start: State, es: seq<Event>, s: State, p: nat, job: Job)
    requires Reaches(cfg, start, es, s) && s.retrier.pc == Ready(p, job)
    ensures InFlight(s, Retrier, p) && Exists(s, Message(Retrier, s, p))
    ensures job.notBefore.Some? && job.attempts >= 1
    ensures job.notBefore.value - s.clock <= RetryDelay(cfg, job.attempts) <= cfg.backoffMax
    ensures var value := At(s, Message(Retrier, s, p)).payload;
            value.EnvelopeJson? && job.notBefore.value <= value.env.lastFailedAt + RetryDelay(cfg, job.attempts)
  {
    ReachableInv(cfg, start, es, s);
    assert RecordOk(cfg, s, Message(Retrier, s, p));
  }
}
