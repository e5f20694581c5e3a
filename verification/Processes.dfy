/** The worker and the retrier as code: handlers that update the topics, the table
    and the breaker in the order the source does, each step recorded as an event of
    the transition relation. */
module Processes {
  import opened Model
  import opened Failures
  import opened EditsTable
  import opened Pipeline
  import opened Invariant
  import opened Preservation
  import opened Classifier

  /** How the status query and the write of one message end, and which partition
      of a failure topic a publish lands in. */
  datatype Surroundings = Surroundings(status: DbResult, fate: Fate, retryPart: nat, dlqPart: nat)

  // --------------------------------------------------- how one message ends

  /** One offset further when the message was committed. */
  function CommittedAfter(committed: seq<nat>, p: nat, outcome: Option<Outcome>): seq<nat>
    requires p < |committed|
  {
    if outcome.Some? then committed[p := committed[p] + 1] else committed
  }

  /** How a message whose pass failed ends, given how the failed row's write did. */
  function AfterFailure(kind: FailureKind, written: WriteResult): Option<Outcome> {
    match written
    case Written => Some(FailedOutcome(kind))
    case Rejected(_) => Some(Parked)
    case ConnectionLost => None
  }

  /** How a message ends once it has a verdict. */
  function AfterVerdict(written: WriteResult): Option<Outcome> {
    match written
    case Written => Some(Succeeded)
    case Rejected(_) => Some(Parked)
    case ConnectionLost => None
  }

  /** How a message ends, given its pass and its write. */
  function AfterPass(out: PassResult, written: WriteResult): Option<Outcome> {
    if out.Crashed? || out.reply.ConfigError? then None
    else if out.reply.Answer? then AfterVerdict(written)
    else AfterFailure(out.reply.kind, written)
  }

  /** How an accepted edit ends: as its pass and its write decide, if it gets one. */
  function AfterEdit(role: Role, rows: Table, job: Job, status: DbResult, out: PassResult, written: WriteResult)
    : Option<Outcome>
  {
    if Admits(role, rows, job, status) then AfterPass(out, written) else WithoutPass(status)
  }

  /** Without a pass: parked when the id does not fit the table, skipped when the
      row was found classified, and a crash when the table cannot be read. */
  function WithoutPass(status: DbResult): Option<Outcome> {
    match status
    case DataError(_) => Some(Parked)
    case Done => Some(Skipped)
    case _ => None
  }

  function AfterMessage(role: Role, rows: Table, value: Payload, status: DbResult, out: PassResult,
                        written: WriteResult): Option<Outcome>
  {
    match Decode(role, value)
    case Err(_) => Some(Parked)
    case Ok(job) => AfterEdit(role, rows, job, status, out, written)
  }

  /** The time when a wait that began at `now` is over. */
  function Later(now: int, notBefore: Option<int>): (t: int)
    ensures now <= t && (t == now || notBefore == Some(t))
    ensures notBefore.Some? ==> notBefore.value <= t
  {
    if notBefore.Some? && now < notBefore.value then notBefore.value else now
  }

  /** Only the retrier waits, and only for a message it accepts. */
  function ClockAfter(role: Role, value: Payload, now: int): int {
    match Decode(role, value)
    case Err(_) => now
    case Ok(job) => if role == Retrier then Later(now, job.notBefore) else now
  }

  /** Whether the outcome comes with an envelope. */
  function Published(outcome: Option<Outcome>): nat {
    if outcome.None? || outcome.value == Skipped || outcome.value == Succeeded then 0 else 1
  }

  /** The one write a pass asks for, if it is admitted. */
  function PassWrite(e: Edit, out: PassResult, at: int): Option<Write> {
    if out.Crashed? || out.reply.ConfigError? then None
    else if out.reply.Answer? then Some(SuccessWrite(e, out.reply.verdict, at))
    else Some(FailureWrite(e, FailedReason(out.reply.kind), out.reply.error, at))
  }

  function RowsAfterPass(rows: Table, e: Edit, out: PassResult, at: int, w: Surroundings): Table {
    var x := PassWrite(e, out, at);
    if x.Some? then AfterWrites(rows, x.value, w.fate, at) else rows
  }

  /** Whether the edit gets its pass: the retrier's always do. */
  predicate Admits(role: Role, rows: Table, job: Job, status: DbResult) {
    role == Retrier ||
    (status.Done? && !(job.edit.id in rows && rows[job.edit.id].status == Classified))
  }

  function RowsAfterEdit(role: Role, rows: Table, job: Job, out: PassResult, at: int, w: Surroundings): Table {
    if Admits(role, rows, job, w.status) then RowsAfterPass(rows, job.edit, out, at, w) else rows
  }

  function RowsAfterMessage(role: Role, rows: Table, value: Payload, out: PassResult, at: int, w: Surroundings)
    : Table
  {
    match Decode(role, value)
    case Err(_) => rows
    case Ok(job) => RowsAfterEdit(role, rows, job, out, at, w)
  }

  /** Where the counter stands after a write and, if need be, its repetition. */
  function AfterAttempts(p: nat, r: WriteResult, next: Pc): Pc {
    match r
    case Written => next
    case Rejected(error) => Parking(p, error)
    case ConnectionLost => Doomed(p)
  }

  /** A connection that cannot be replaced is one lost again before the statement. */
  function SecondTry(f: Fate): DbResult {
    if f.reconnects then f.second else LostBefore
  }

  predicate Wrote(outcome: Option<Outcome>) {
    outcome.Some? && (Resets(outcome.value) || outcome.value == TransientFailure)
  }

  /** The write that goes with an outcome; a row never says `retries_exhausted`. */
  predicate Suits(x: Write, outcome: Outcome) {
    match outcome
    case Succeeded => x.SuccessWrite?
    case ParseFailure => x.FailureWrite? && x.reason == ParseFailed
    case TransientFailure => x.FailureWrite? && x.reason == TransientExhausted
    case _ => false
  }

  /** A message makes at most the one write its pass asks for, and a repetition of
      it after a lost connection is invisible but for `processed_at`. When the
      message ends in a verdict or on a failure topic, the write is in the table. */
  lemma MessageWritesOnce(role: Role, rows: Table, value: Payload, out: PassResult, at: int, w: Surroundings)
    ensures var after := RowsAfterMessage(role, rows, value, out, at, w);
            var outcome := AfterMessage(role, rows, value, w.status, out, EndOf(w.fate));
            (after == rows && !Wrote(outcome)) ||
            (Decode(role, value).Ok? &&
             var x := PassWrite(Decode(role, value).value.edit, out, at);
             x.Some? && SameButTime(after, Apply(rows, x.value)) && (Wrote(outcome) ==> Suits(x.value, outcome.value)))
  {
    var d := Decode(role, value);
    if d.Ok? {
      var x := PassWrite(d.value.edit, out, at);
      if x.Some? {
        RepeatedWrite(rows, x.value, w.fate, at);
      }
    }
  }

  // ------------------------------------------------------- the routing table

  /** The row an admitted edit leaves when its write went through. */
  ghost predicate RowTells(before: Table, after: Table, e: Edit, reply: Reply, at: int) {
    e.id in after && OnlyRow(before, after, e.id) && DescribedOnce(before, after, e) &&
    match reply
    case Answer(v) => HoldsVerdict(after[e.id], v, at)
    case Fails(kind, error) =>
      if e.id in before && before[e.id].status == Classified then after == before
      else HoldsFailure(after[e.id], if kind == Unavailable then TransientExhausted else ParseFailed, error, at)
    case ConfigError => false
  }

  /** The routing table, class by class: what a message's outcome is, None being a
      crash without commit, and what becomes of its row. */
  lemma RoutingTable(role: Role, rows: Table, value: Payload, out: PassResult, at: int, w: Surroundings)
    ensures var outcome := AfterMessage(role, rows, value, w.status, out, EndOf(w.fate));
            var after := RowsAfterMessage(role, rows, value, out, at, w);
            match Decode(role, value)
            case Err(_) => outcome == Some(Parked) && after == rows
            case Ok(job) =>
              if role == Worker && w.status.DataError? then outcome == Some(Parked) && after == rows
              else if role == Worker && !w.status.Done? then outcome == None && after == rows
              else if role == Worker && job.edit.id in rows && rows[job.edit.id].status == Classified then
                outcome == Some(Skipped) && after == rows
              else if out.Crashed? || out.reply.ConfigError? then outcome == None && after == rows
              else if w.fate.first.Done? || (!w.fate.first.DataError? && w.fate.reconnects && w.fate.second.Done?) then
                RowTells(rows, after, job.edit, out.reply, at) &&
                outcome == Some(if out.reply.Answer? then Succeeded
                                else if out.reply.kind == Unavailable then TransientFailure else ParseFailure)
              else if w.fate.first.DataError? || (w.fate.reconnects && w.fate.second.DataError?) then
                outcome == Some(Parked)
              else outcome == None
  {
    var d := Decode(role, value);
    if d.Ok? && Admits(role, rows, d.value, w.status) {
      var x := PassWrite(d.value.edit, out, at);
      if x.Some? && EndOf(w.fate).Written? {
        WriteIsSeen(rows, x.value, w.fate, at);
      }
    }
  }

  /** A write that went through, once or again at the same time, is in its row. */
  lemma WriteIsSeen(rows: Table, x: Write, f: Fate, at: int)
    requires x.at == at && EndOf(f).Written?
    ensures var after := AfterWrites(rows, x, f, at);
            x.edit.id in after && OnlyRow(rows, after, x.edit.id) && DescribedOnce(rows, after, x.edit) &&
            match x
            case SuccessWrite(_, v, _) => HoldsVerdict(after[x.edit.id], v, at)
            case FailureWrite(_, reason, error, _) =>
              if x.edit.id in rows && rows[x.edit.id].status == Classified then after == rows
              else HoldsFailure(after[x.edit.id], reason, error, at)
  {
    assert x.(at := at) == x;
    assert Apply(Apply(rows, x), x) == Apply(rows, x);
  }

  /** One envelope comes with each park and each routed failure, and none else. */
  lemma EnvelopesByOutcome()
    ensures Published(None) == Published(Some(Skipped)) == Published(Some(Succeeded)) == 0
    ensures Published(Some(Parked)) == Published(Some(ParseFailure)) == Published(Some(TransientFailure)) == 1
  {
  }

  /** What a routed failure's envelope says, member by member, and where it goes: a
      parse failure to the DLQ with the attempts it came with; a transient failure,
      one attempt more when the retrier saw it, to the retry topic while at most M,
      due base * 2^(n-1) later and never later than the cap, else to the DLQ. */
  lemma EnvelopeTells(cfg: Config, role: Role, job: Job, kind: FailureKind, error: string, m: Coord, now: int)
    requires job.attempts >= 1
    ensures var env := FailureEnvelope(cfg, role, job, kind, error, m, now);
            var topic := RouteOf(cfg, role, job, kind, now).topic;
            && env.schema == Good(1) && env.kafka == m && env.error == error && env.edit == Good(job.edit)
            && env.raw == None && env.source == (if role == Worker then FromWorker else FromRetrier)
            && env.firstFailedAt == (if job.firstFailedAt.Some? then job.firstFailedAt else Some(now))
            && env.lastFailedAt == now
            && var n := if role == Retrier && kind == Unavailable then job.attempts + 1 else job.attempts;
               var step := cfg.backoffBase * Pow2(n - 1);
               env.attempts == Good(n) &&
               if kind == Unparseable then topic == Dlq && env.reason == ParseFailed && env.notBefore == Absent
               else if n <= cfg.maxRetryPasses then
                 topic == Retry && env.reason == TransientExhausted &&
                 env.notBefore == Good(now + if step <= cfg.backoffMax then step else cfg.backoffMax)
               else topic == Dlq && env.reason == RetriesExhausted && env.notBefore == Absent
  {
  }

  // ---------------------------------------------- what each step leaves

  /** The envelope a routed failure is published in. */
  function FailureEnvelope(cfg: Config, role: Role, job: Job, kind: FailureKind, error: string, m: Coord, now: int)
    : Envelope
    requires FailureAttempts(role, job, kind) >= 1
  {
    var route := RouteOf(cfg, role, job, kind, now);
    MakeEnvelope(route.reason, error, SourceName(role), m, Some(job.edit), None,
                 route.attempts, job.firstFailedAt, route.notBefore, now)
  }

  /** The worker's redelivery check, for each way its query can end. */
  lemma AdmitStep(cfg: Config, s: State, p: nat, job: Job, db: DbResult)
    requires s.worker.pc == Ready(p, job)
    ensures var id := job.edit.id;
            Act(cfg, s, Worker, Admit(db)) == Some(WithPc(s, Worker,
              match db
              case DataError(error) => Parking(p, error)
              case Done =>
                if id in s.table && s.table[id].status == Classified then Committing(p, Skipped) else Admitted(p, job)
              case _ => Doomed(p)))
  {
  }

  lemma ChooseStep(cfg: Config, s: State, role: Role, p: nat, job: Job, kind: FailureKind, error: string)
    requires ProcOf(s, role).pc == Recorded(p, job, kind, error) && job.attempts >= 1
    ensures Act(cfg, s, role, ChooseRoute) ==
            Some(WithPc(s, role, Routed(p, job, kind, error, RouteOf(cfg, role, job, kind, s.clock))))
  {
  }

  lemma WrapStep(cfg: Config, s: State, role: Role, p: nat, job: Job, kind: FailureKind, error: string, route: Route)
    requires ProcOf(s, role).pc == Routed(p, job, kind, error, route) && InFlight(s, role, p)
    ensures Act(cfg, s, role, Wrap) ==
            Some(WithPc(s, role, Publishing(p, route.topic,
              MakeEnvelope(route.reason, error, SourceName(role), Message(role, s, p), Some(job.edit), None,
                           route.attempts, job.firstFailedAt, route.notBefore, s.clock), FailedOutcome(kind))))
  {
  }

  lemma ParkStep(cfg: Config, s: State, role: Role, p: nat, error: string)
    requires ProcOf(s, role).pc == Parking(p, error) && InFlight(s, role, p)
    ensures var m := Message(role, s, p);
            var env := ParkedEnvelope(SourceName(role), m, TopicOf(s, SourceTopic(role)).parts[p][m.offset].payload,
                                      error, s.clock);
            Act(cfg, s, role, Wrap) == Some(WithPc(s, role, Publishing(p, Dlq, env, Parked)))
  {
  }

  /** The states agree on all but the table, its history and the counter of `role`. */
  ghost predicate SameButTable(s: State, s': State, role: Role) {
    s'.raw == s.raw && s'.retry == s.retry && s'.dlq == s.dlq && s'.clock == s.clock && s'.stamps == s.stamps &&
    ProcOf(s', role).failures == ProcOf(s, role).failures
  }

  lemma SaveStep(cfg: Config, s: State, role: Role, p: nat, job: Job, v: Verdict, again: bool, how: DbResult)
    requires ProcOf(s, role).pc == Saving(p, job, v, again)
    ensures var s' := Step(cfg, s, Do(role, Save(how)));
            && s'.Some? && SameButTable(s, s'.value, role)
            && s'.value.table == Executed(s.table, SuccessWrite(job.edit, v, s.clock), how)
            && ProcOf(s'.value, role).pc == AfterWrite(p, how, Committing(p, Succeeded),
                                                       if again then None else Some(Saving(p, job, v, true)))
  {
  }

  lemma FailureStep(cfg: Config, s: State, role: Role, p: nat, job: Job, kind: FailureKind, error: string,
                    again: bool, how: DbResult)
    requires ProcOf(s, role).pc == Recording(p, job, kind, error, again)
    ensures var s' := Step(cfg, s, Do(role, RecordFailed(how)));
            && s'.Some? && SameButTable(s, s'.value, role)
            && s'.value.table == Executed(s.table, FailureWrite(job.edit, FailedReason(kind), error, s.clock), how)
            && ProcOf(s'.value, role).pc ==
               AfterWrite(p, how, Recorded(p, job, kind, error),
                          if again then None else Some(Recording(p, job, kind, error, true)))
  {
  }

  /** A send appends the envelope and nothing else. */
  lemma SendStep(cfg: Config, s: State, role: Role, q: nat, p: nat, topic: TopicName, env: Envelope, outcome: Outcome)
    requires ProcOf(s, role).pc == Publishing(p, topic, env, outcome) && topic != Raw && q < |TopicOf(s, topic).parts|
    ensures var s', r := Step(cfg, s, Do(role, Publish(q))), Model.Record(EnvelopeJson(env), s.stamps);
            && s'.Some? && s'.value.raw == s.raw && s'.value.table == s.table
            && s'.value.clock == s.clock && s'.value.stamps == s.stamps + 1
            && s'.value.retry == (if topic == Retry then Appended(s.retry, q, r) else s.retry)
            && s'.value.dlq == (if topic == Retry then s.dlq else Appended(s.dlq, q, r))
            && ProcOf(s'.value, role).failures == ProcOf(s, role).failures
            && ProcOf(s'.value, role).pc == Committing(p, outcome)
  {
  }

  /** A commit advances the one offset and leaves all else to the breaker. */
  lemma CommitStep(cfg: Config, s: State, role: Role, p: nat, outcome: Outcome)
    requires ProcOf(s, role).pc == Committing(p, outcome) && p < |TopicOf(s, SourceTopic(role)).committed|
    ensures var s' := Step(cfg, s, Do(role, Commit));
            && s'.Some? && s'.value.dlq == s.dlq && s'.value.table == s.table
            && s'.value.clock == s.clock && s'.value.stamps == s.stamps
            && s'.value.raw == (if role == Worker then Advanced(s.raw, p) else s.raw)
            && s'.value.retry == (if role == Worker then s.retry else Advanced(s.retry, p))
            && ProcOf(s'.value, role).failures == ProcOf(s, role).failures
            && ProcOf(s'.value, role).pc == Settling(p, outcome)
  {
  }

  lemma SettleStep(cfg: Config, s: State, role: Role, p: nat, outcome: Outcome)
    requires ProcOf(s, role).pc == Settling(p, outcome)
    ensures var s', failures := Step(cfg, s, Do(role, Settle)), ProcOf(s, role).failures;
            && s'.Some? && SameData(s, s'.value)
            && if outcome == TransientFailure && failures + 1 >= cfg.breakerThreshold
               then ProcOf(s'.value, role) == RESTARTED
               else ProcOf(s'.value, role).pc == Idle && ProcOf(s'.value, role).failures ==
                    if outcome == TransientFailure then failures + 1 else if Resets(outcome) then 0 else failures
  {
  }

  lemma RunKeepsLogs(cfg: Config, origin: State, trace: seq<Event>, s: State)
    requires Inv(cfg, origin) && Exec(cfg, origin, trace) == Some(s)
    ensures LogsOk(cfg, s)
  {
    RunKeepsInv(cfg, origin, trace, s);
  }

  /** A longer run goes on from the state the shorter one reached. */
  lemma Continues(cfg: Config, origin: State, before: seq<Event>, s: State, after: seq<Event>, s': State)
    requires Inv(cfg, origin) && before <= after
    requires Exec(cfg, origin, before) == Some(s) && Exec(cfg, origin, after) == Some(s')
    ensures Exec(cfg, s, after[|before|..]) == Some(s') && Extends(s, s')
  {
    assert after == before + after[|before|..];
    ExecConcat(cfg, origin, before, after[|before|..]);
    RunKeepsInv(cfg, origin, before, s);
    RunKeepsInv(cfg, s, after[|before|..], s');
  }

  lemma SettlingIsResolved(cfg: Config, s: State, role: Role, p: nat, committed: seq<nat>, outcome: Outcome)
    requires Inv(cfg, s) && ProcOf(s, role).pc == Settling(p, outcome) && p < |committed|
    requires TopicOf(s, SourceTopic(role)).committed == CommittedAfter(committed, p, Some(outcome))
    ensures Resolved(s, role, Coord(SourceTopic(role), p, committed[p]), outcome)
  {
    assert ProcOk(cfg, s, role);
  }

  lemma SettledStaysResolved(s: State, s': State, role: Role, k: Coord, outcome: Outcome)
    requires SameData(s, s') && Resolved(s, role, k, outcome)
    ensures Resolved(s', role, k, outcome)
  {
    QuietExtends(s, s');
    ResolvedStays(s, s', role, k, outcome);
  }

  // ------------------------------------------------------------- the service

  /** One live process and the world it acts on. The ghost fields say which run of
      the transition relation has led from `origin` to the present state. */
  class Service {
    const cfg: Config
    const role: Role
    const breaker: CircuitBreaker
    const table: Edits
    ghost const origin: State
    var raw: Topic
    var retry: Topic
    var dlq: Topic
    var clock: int
    var stamps: nat
    ghost var s: State
    ghost var trace: seq<Event>

    /** The recorded run reaches a state with these topics. */
    ghost predicate Traced()
      reads this
    {
      Exec(cfg, origin, trace) == Some(s) &&
      s.raw == raw && s.retry == retry && s.dlq == dlq && s.clock == clock && s.stamps == stamps
    }

    /** The fields are the state the recorded run reaches. */
    ghost predicate InStep()
      reads this, table
    {
      Traced() && s.table == table.rows
    }

    /** And the process is alive, with its breaker's count. */
    ghost predicate Valid()
      reads this, breaker, table
    {
      && InStep()
      && breaker.threshold == cfg.breakerThreshold && breaker.Valid()
      && ProcOf(s, role).failures == breaker.consecutiveFailures
    }

    ghost function Counter(): Pc
      reads this
    {
      ProcOf(s, role).pc
    }

    ghost function Source(): Topic
      reads this
    {
      TopicOf(s, SourceTopic(role))
    }

    /** A message from partition `p` is in flight, and the failure topics have the
        partitions the publishes land in. */
    ghost predicate Flying(p: nat, w: Surroundings)
      reads this
    {
      InFlight(s, role, p) && w.dlqPart < |dlq.parts| && w.retryPart < |retry.parts|
    }

    /** The message from partition `p` is committed with `outcome`, or, with None,
        the process has died and committed nothing. */
    ghost predicate Ended(p: nat, committed: seq<nat>, outcome: Option<Outcome>)
      requires p < |committed|
      reads this, breaker, table
    {
      && InStep()
      && Source().committed == CommittedAfter(committed, p, outcome)
      && if outcome.Some? then Valid() && Counter() == Settling(p, outcome.value) else ProcOf(s, role) == RESTARTED
    }

    /** A process starts with a new breaker, between two messages. */
    constructor (cfg: Config, role: Role, state: State, table: Edits, breaker: CircuitBreaker)
      requires table.rows == state.table
      requires ProcOf(state, role) == RESTARTED
      requires breaker.Valid() && breaker.threshold == cfg.breakerThreshold && breaker.consecutiveFailures == 0
      ensures Valid() && s == state && this.cfg == cfg && this.role == role && this.breaker == breaker
      ensures this.table == table && origin == state && trace == []
    {
      this.cfg, this.role, this.table, this.breaker := cfg, role, table, breaker;
      origin := state;
      raw, retry, dlq := state.raw, state.retry, state.dlq;
      clock, stamps := state.clock, state.stamps;
      s, trace := state, [];
    }

    ghost method Record(e: Event)
      requires Exec(cfg, origin, trace) == Some(s) && Step(cfg, s, e).Some?
      modifies this`s, this`trace
      ensures Some(s) == Step(cfg, old(s), e) && trace == old(trace) + [e]
      ensures Exec(cfg, origin, trace) == Some(s)
    {
      ExecSnoc(cfg, origin, trace, e);
      s, trace := Step(cfg, s, e).value, trace + [e];
    }

    /** A step that moves only the program counter, to `next`. */
    ghost method Note(a: Action, next: Pc)
      requires Valid() && Act(cfg, s, role, a) == Some(WithPc(s, role, next))
      modifies this`s, this`trace
      ensures Valid() && old(trace) <= trace
      ensures Counter() == next && Source() == old(Source()) && SameData(old(s), s)
    {
      Record(Do(role, a));
    }

    /** One attempt at the verdict's upsert, as a step of the run. */
    ghost method NoteSave(p: nat, job: Job, v: Verdict, again: bool, how: DbResult)
      requires Traced() && Counter() == Saving(p, job, v, again)
      modifies this`s, this`trace
      ensures Traced() && old(trace) <= trace && Source() == old(Source())
      ensures s.table == Executed(old(s).table, SuccessWrite(job.edit, v, clock), how)
      ensures ProcOf(s, role).failures == ProcOf(old(s), role).failures
      ensures Counter() == AfterWrite(p, how, Committing(p, Succeeded),
                                      if again then None else Some(Saving(p, job, v, true)))
    {
      SaveStep(cfg, s, role, p, job, v, again, how);
      Record(Do(role, Save(how)));
    }

    /** One attempt at the failure's guarded upsert, as a step of the run. */
    ghost method NoteFailure(p: nat, job: Job, kind: FailureKind, error: string, again: bool, how: DbResult)
      requires Traced() && Counter() == Recording(p, job, kind, error, again)
      modifies this`s, this`trace
      ensures Traced() && old(trace) <= trace && Source() == old(Source())
      ensures s.table == Executed(old(s).table, FailureWrite(job.edit, FailedReason(kind), error, clock), how)
      ensures ProcOf(s, role).failures == ProcOf(old(s), role).failures
      ensures Counter() == AfterWrite(p, how, Recorded(p, job, kind, error),
                                      if again then None else Some(Recording(p, job, kind, error, true)))
    {
      FailureStep(cfg, s, role, p, job, kind, error, again, how);
      Record(Do(role, RecordFailed(how)));
    }

    /** `write_with_reconnect` around the verdict's upsert. */
    method SaveVerdict(p: nat, job: Job, v: Verdict, w: Surroundings) returns (r: WriteResult)
      requires Valid() && Counter() == Saving(p, job, v, false)
      modifies this`s, this`trace, table
      ensures Valid() && old(trace) <= trace && Source() == old(Source())
      ensures r == EndOf(w.fate) && Counter() == AfterAttempts(p, r, Committing(p, Succeeded))
      ensures table.rows == AfterWrites(old(table.rows), SuccessWrite(job.edit, v, clock), w.fate, clock)
    {
      NoteSave(p, job, v, false, w.fate.first);
      if Lost(w.fate.first) {
        NoteSave(p, job, v, true, SecondTry(w.fate));
      }
      r := table.WriteWithReconnect(SuccessWrite(job.edit, v, clock), w.fate, clock);
    }

    /** `write_with_reconnect` around the failure's guarded upsert. */
    method SaveFailure(p: nat, job: Job, kind: FailureKind, error: string, w: Surroundings) returns (r: WriteResult)
      requires Valid() && Counter() == Recording(p, job, kind, error, false)
      modifies this`s, this`trace, table
      ensures Valid() && old(trace) <= trace && Source() == old(Source())
      ensures r == EndOf(w.fate) && Counter() == AfterAttempts(p, r, Recorded(p, job, kind, error))
      ensures table.rows == AfterWrites(old(table.rows), FailureWrite(job.edit, FailedReason(kind), error, clock),
                                        w.fate, clock)
    {
      NoteFailure(p, job, kind, error, false, w.fate.first);
      if Lost(w.fate.first) {
        NoteFailure(p, job, kind, error, true, SecondTry(w.fate));
      }
      r := table.WriteWithReconnect(FailureWrite(job.edit, FailedReason(kind), error, clock), w.fate, clock);
    }

    /** The publish as a step of the run, which the fields have yet to follow. */
    ghost method NotePublish(topic: TopicName, env: Envelope, q: nat, p: nat, outcome: Outcome)
      requires Valid() && Counter() == Publishing(p, topic, env, outcome) && topic != Raw
      requires q < |TopicOf(s, topic).parts|
      modifies this`s, this`trace
      ensures Exec(cfg, origin, trace) == Some(s) && old(trace) <= trace && Counter() == Committing(p, outcome)
      ensures s.raw == raw && s.clock == clock && s.stamps == stamps + 1 && s.table == table.rows
      ensures var r := Model.Record(EnvelopeJson(env), stamps);
              s.retry == (if topic == Retry then Appended(retry, q, r) else retry) &&
              s.dlq == (if topic == Retry then dlq else Appended(dlq, q, r))
      ensures ProcOf(s, role).failures == ProcOf(old(s), role).failures
    {
      SendStep(cfg, s, role, q, p, topic, env, outcome);
      Record(Do(role, Publish(q)));
    }

    /** An acknowledged send to one of the failure topics. */
    method Send(topic: TopicName, env: Envelope, q: nat, ghost p: nat, ghost outcome: Outcome)
      requires Valid() && Counter() == Publishing(p, topic, env, outcome) && topic != Raw
      requires q < |TopicOf(s, topic).parts|
      modifies this`retry, this`dlq, this`stamps, this`s, this`trace
      ensures Valid() && old(trace) <= trace && Counter() == Committing(p, outcome)
      ensures Source().committed == old(Source().committed) && stamps == old(stamps) + 1
      ensures var r := Model.Record(EnvelopeJson(env), old(stamps));
              retry == (if topic == Retry then Appended(old(retry), q, r) else old(retry)) &&
              dlq == (if topic == Retry then old(dlq) else Appended(old(dlq), q, r))
    {
      NotePublish(topic, env, q, p, outcome);
      if topic == Retry {
        retry := Appended(retry, q, Model.Record(EnvelopeJson(env), stamps));
      } else {
        dlq := Appended(dlq, q, Model.Record(EnvelopeJson(env), stamps));
      }
      stamps := stamps + 1;
    }

    /** `consumer.commit()`: the one message in flight is committed. */
    method CommitMessage(p: nat, ghost outcome: Outcome)
      requires Valid() && Counter() == Committing(p, outcome) && p < |Source().committed|
      modifies this`raw, this`retry, this`s, this`trace
      ensures Valid() && old(trace) <= trace && Counter() == Settling(p, outcome)
      ensures Source().committed == CommittedAfter(old(Source().committed), p, Some(outcome))
      ensures raw.parts == old(raw.parts) && retry.parts == old(retry.parts)
    {
      CommitStep(cfg, s, role, p, outcome);
      Record(Do(role, Commit));
      if role == Worker {
        raw := Advanced(raw, p);
      } else {
        retry := Advanced(retry, p);
      }
    }

    /** Breaker bookkeeping, after the commit. */
    method Bookkeep(outcome: Outcome, ghost p: nat) returns (tripped: bool)
      requires Valid() && Counter() == Settling(p, outcome)
      modifies this`s, this`trace, breaker
      ensures !tripped ==> Valid() && Counter() == Idle
      ensures tripped ==> ProcOf(s, role) == RESTARTED
      ensures tripped <==> outcome == TransientFailure && old(breaker.consecutiveFailures) + 1 >= cfg.breakerThreshold
      ensures outcome == Succeeded || outcome == ParseFailure ==> breaker.consecutiveFailures == 0
      ensures outcome == Skipped || outcome == Parked ==>
                breaker.consecutiveFailures == old(breaker.consecutiveFailures)
      ensures outcome == TransientFailure ==> breaker.consecutiveFailures == old(breaker.consecutiveFailures) + 1
      ensures InStep() && old(trace) <= trace && SameData(old(s), s)
    {
      SettleStep(cfg, s, role, p, outcome);
      Record(Do(role, Settle));
      tripped := false;
      if outcome == TransientFailure {
        tripped := breaker.RecordFailure();
      } else if Resets(outcome) {
        breaker.RecordSuccess(outcome);
      }
    }

    /** The end of every failure path: the envelope is published, then the message
        it reports is committed. */
    method Deliver(p: nat, topic: TopicName, env: Envelope, w: Surroundings, ghost outcome: Outcome)
      requires Valid() && Counter() == Publishing(p, topic, env, outcome) && topic != Raw && Flying(p, w)
      modifies this`raw, this`retry, this`dlq, this`stamps, this`s, this`trace
      ensures Valid() && old(trace) <= trace && Counter() == Settling(p, outcome)
      ensures Source().committed == CommittedAfter(old(Source().committed), p, Some(outcome))
      ensures stamps == old(stamps) + 1
      ensures var r := Model.Record(EnvelopeJson(env), old(stamps));
              dlq == (if topic == Retry then old(dlq) else Appended(old(dlq), w.dlqPart, r)) &&
              retry.parts == (if topic == Retry then Appended(old(retry), w.retryPart, r) else old(retry)).parts
    {
      Send(topic, env, if topic == Retry then w.retryPart else w.dlqPart, p, outcome);
      CommitMessage(p, outcome);
    }

    /** `park_malformed`: publish the original bytes to the DLQ, then commit. */
    method ParkMalformed(p: nat, error: string, w: Surroundings)
      requires Valid() && Counter() == Parking(p, error) && Flying(p, w)
      modifies this`raw, this`retry, this`dlq, this`stamps, this`s, this`trace
      ensures Valid() && old(trace) <= trace && Counter() == Settling(p, Parked)
      ensures Source().committed == CommittedAfter(old(Source().committed), p, Some(Parked))
      ensures stamps == old(stamps) + 1 && retry.parts == old(retry.parts)
      ensures var m := old(Message(role, s, p));
              var env := ParkedEnvelope(SourceName(role), m, old(Source().parts[p][m.offset].payload), error, clock);
              dlq == Appended(old(dlq), w.dlqPart, Model.Record(EnvelopeJson(env), old(stamps)))
    {
      var src := if role == Worker then raw else retry;
      var m := Coord(SourceTopic(role), p, src.committed[p]);
      var env := ParkedEnvelope(SourceName(role), m, src.parts[p][m.offset].payload, error, clock);
      ParkStep(cfg, s, role, p, error);
      Note(Wrap, Publishing(p, Dlq, env, Parked));
      Deliver(p, Dlq, env, w, Parked);
    }

    /** The process dies without committing. */
    ghost method Die()
      requires Valid()
      modifies this`s, this`trace
      ensures InStep() && old(trace) <= trace && SameData(old(s), s)
      ensures ProcOf(s, role) == RESTARTED
    {
      Record(Crash(role));
    }

    /** Time passing, as a step of the run that the clock has yet to follow. */
    ghost method NoteTick(n: nat)
      requires Exec(cfg, origin, trace) == Some(s)
      modifies this`s, this`trace
      ensures Exec(cfg, origin, trace) == Some(s) && old(trace) <= trace
      ensures s == old(s).(clock := old(s).clock + n)
    {
      Record(Tick(n));
    }

    /** `wait_until`, for a clock that reads the target when the wait ends. */
    method Wait(notBefore: Option<int>)
      requires Valid()
      modifies this`s, this`trace, this`clock
      ensures Valid() && old(trace) <= trace && Counter() == old(Counter()) && Source() == old(Source())
      ensures s.table == old(s).table
      ensures clock == Later(old(clock), notBefore)
    {
      if notBefore.Some? && clock < notBefore.value {
        NoteTick(notBefore.value - clock);
        clock := notBefore.value;
      }
    }

    /** The route of a failure, then its envelope. */
    method Prepare(p: nat, job: Job, kind: FailureKind, error: string) returns (topic: TopicName, env: Envelope)
      requires Valid() && Counter() == Recorded(p, job, kind, error) && InFlight(s, role, p) && job.attempts >= 1
      modifies this`s, this`trace
      ensures Valid() && old(trace) <= trace && Source() == old(Source())
      ensures Counter() == Publishing(p, topic, env, FailedOutcome(kind)) && topic != Raw
      ensures topic == RouteOf(cfg, role, job, kind, clock).topic
      ensures env == FailureEnvelope(cfg, role, job, kind, error, old(Message(role, s, p)), clock)
    {
      var src := if role == Worker then raw else retry;
      var route := RouteOf(cfg, role, job, kind, clock);
      topic := route.topic;
      env := FailureEnvelope(cfg, role, job, kind, error, Coord(SourceTopic(role), p, src.committed[p]), clock);
      ChooseStep(cfg, s, role, p, job, kind, error);
      Note(ChooseRoute, Routed(p, job, kind, error, route));
      WrapStep(cfg, s, role, p, job, kind, error, route);
      Note(Wrap, Publishing(p, topic, env, FailedOutcome(kind)));
    }

    /** The second half of `handle_classifier_failure`: the envelope, the
        acknowledged publish, the commit. */
    method SendOn(p: nat, job: Job, kind: FailureKind, error: string, w: Surroundings)
      requires Valid() && Counter() == Recorded(p, job, kind, error) && Flying(p, w) && job.attempts >= 1
      modifies this`raw, this`retry, this`dlq, this`stamps, this`s, this`trace
      ensures Valid() && old(trace) <= trace && Counter() == Settling(p, FailedOutcome(kind))
      ensures Source().committed == CommittedAfter(old(Source().committed), p, Some(FailedOutcome(kind)))
      ensures stamps == old(stamps) + 1
      ensures var env := FailureEnvelope(cfg, role, job, kind, error, old(Message(role, s, p)), clock);
              var r, topic := Model.Record(EnvelopeJson(env), old(stamps)), RouteOf(cfg, role, job, kind, clock).topic;
              dlq == (if topic == Retry then old(dlq) else Appended(old(dlq), w.dlqPart, r)) &&
              retry.parts == (if topic == Retry then Appended(old(retry), w.retryPart, r) else old(retry)).parts
    {
      var topic, env := Prepare(p, job, kind, error);
      Deliver(p, topic, env, w, FailedOutcome(kind));
    }

    /** `handle_classifier_failure`, up to the commit. None is a crash. */
    method HandleFailure(p: nat, job: Job, kind: FailureKind, error: string, w: Surroundings)
      returns (outcome: Option<Outcome>)
      requires Valid() && Counter() == Recording(p, job, kind, error, false) && Flying(p, w) && job.attempts >= 1
      modifies this`raw, this`retry, this`dlq, this`stamps, this`s, this`trace, table
      ensures outcome == AfterFailure(kind, EndOf(w.fate)) && Ended(p, old(Source()).committed, outcome)
      ensures old(trace) <= trace && stamps == old(stamps) + Published(outcome)
      ensures table.rows == AfterWrites(old(table.rows), FailureWrite(job.edit, FailedReason(kind), error, clock),
                                        w.fate, clock)
    {
      var r := SaveFailure(p, job, kind, error, w);
      outcome := AfterFailure(kind, r);
      match r
      case ConnectionLost => Die();
      case Rejected(e) => ParkMalformed(p, e, w);
      case Written => SendOn(p, job, kind, error, w);
    }

    /** A verdict is saved, then the message committed. */
    method HandleVerdict(p: nat, job: Job, v: Verdict, w: Surroundings) returns (outcome: Option<Outcome>)
      requires Valid() && Counter() == Saving(p, job, v, false) && Flying(p, w)
      modifies this`raw, this`retry, this`dlq, this`stamps, this`s, this`trace, table
      ensures outcome == AfterVerdict(EndOf(w.fate)) && Ended(p, old(Source()).committed, outcome)
      ensures old(trace) <= trace && stamps == old(stamps) + Published(outcome)
      ensures table.rows == AfterWrites(old(table.rows), SuccessWrite(job.edit, v, clock), w.fate, clock)
    {
      var r := SaveVerdict(p, job, v, w);
      outcome := AfterVerdict(r);
      match r
      case ConnectionLost => Die();
      case Rejected(e) => ParkMalformed(p, e, w);
      case Written => CommitMessage(p, Succeeded);
    }

    /** What follows from a classify pass, up to the commit. None is a crash. */
    method ActOn(p: nat, job: Job, out: PassResult, w: Surroundings) returns (outcome: Option<Outcome>)
      requires Valid() && Counter() == Classifying(p, job) && Flying(p, w) && job.attempts >= 1
      requires out.Reported? && out.reply.Answer? ==> ValidVerdict(out.reply.verdict)
      modifies this`raw, this`retry, this`dlq, this`stamps, this`s, this`trace, table
      ensures outcome == AfterPass(out, EndOf(w.fate)) && Ended(p, old(Source()).committed, outcome)
      ensures old(trace) <= trace && stamps == old(stamps) + Published(outcome)
      ensures table.rows == RowsAfterPass(old(table.rows), job.edit, out, clock, w)
    {
      outcome := None;
      if out.Crashed? || out.reply.ConfigError? {
        Die();
      } else if out.reply.Answer? {
        Note(GetReply(out.reply), Saving(p, job, out.reply.verdict, false));
        outcome := HandleVerdict(p, job, out.reply.verdict, w);
      } else {
        Note(GetReply(out.reply), Recording(p, job, out.reply.kind, out.reply.error, false));
        outcome := HandleFailure(p, job, out.reply.kind, out.reply.error, w);
      }
    }

    /** One classify pass over an admitted edit, and what follows from it. */
    method RunPass(p: nat, job: Job, settings: Settings, replies: nat -> ModelReply, w: Surroundings)
      returns (outcome: Option<Outcome>)
      requires Valid() && Counter() == Admitted(p, job) && Flying(p, w) && job.attempts >= 1
      requires settings.backoffBase >= 0.0
      modifies this`raw, this`retry, this`dlq, this`stamps, this`s, this`trace, table
      ensures outcome == AfterPass(PassOf(settings, replies), EndOf(w.fate))
      ensures Ended(p, old(Source()).committed, outcome)
      ensures old(trace) <= trace && stamps == old(stamps) + Published(outcome)
      ensures table.rows == RowsAfterPass(old(table.rows), job.edit, PassOf(settings, replies), clock, w)
    {
      Note(StartPass, Classifying(p, job));
      var out, calls, slept := Classify(settings, replies);
      outcome := ActOn(p, job, out, w);
    }

    /** An edit that gets no pass: parked when its id does not fit the table, skipped
        when its row is classified, and a crash when the table cannot be read. */
    method EndWithoutPass(p: nat, job: Job, w: Surroundings)
      requires Valid() && Counter() == Ready(p, job) && Flying(p, w) && role == Worker
      requires !Admits(role, table.rows, job, w.status)
      modifies this`raw, this`retry, this`dlq, this`stamps, this`s, this`trace
      ensures Ended(p, old(Source()).committed, WithoutPass(w.status))
      ensures old(trace) <= trace && stamps == old(stamps) + Published(WithoutPass(w.status))
    {
      AdmitStep(cfg, s, p, job, w.status);
      match w.status
      case DataError(error) =>
        Note(Admit(w.status), Parking(p, error));
        ParkMalformed(p, error, w);
      case Done =>
        Note(Admit(w.status), Committing(p, Skipped));
        CommitMessage(p, Skipped);
      case _ => Die();
    }

    /** The worker's redelivery check. An edit that gets no pass has ended here. */
    method CheckRow(p: nat, job: Job, w: Surroundings) returns (pass: bool)
      requires Valid() && Counter() == Ready(p, job) && Flying(p, w) && role == Worker
      modifies this`raw, this`retry, this`dlq, this`stamps, this`s, this`trace
      ensures pass <==> Admits(role, table.rows, job, w.status)
      ensures pass ==> Valid() && Counter() == Admitted(p, job) && Flying(p, w)
      ensures pass ==> Source() == old(Source()) && stamps == old(stamps)
      ensures !pass ==> Ended(p, old(Source()).committed, WithoutPass(w.status))
      ensures !pass ==> stamps == old(stamps) + Published(WithoutPass(w.status))
      ensures old(trace) <= trace
    {
      var status := table.FetchEditStatus(job.edit);
      pass := w.status.Done? && status != Some(Classified);
      if pass {
        AdmitStep(cfg, s, p, job, w.status);
        Note(Admit(w.status), Admitted(p, job));
      } else {
        EndWithoutPass(p, job, w);
      }
    }

    /** `_handle_edit`: the worker's check or the retrier's wait, then the pass. None is a crash. */
    method HandleEdit(p: nat, job: Job, settings: Settings, replies: nat -> ModelReply, w: Surroundings)
      returns (outcome: Option<Outcome>)
      requires Valid() && Counter() == Ready(p, job) && Flying(p, w) && job.attempts >= 1
      requires settings.backoffBase >= 0.0
      modifies this, table
      ensures outcome == AfterEdit(role, old(table.rows), job, w.status, PassOf(settings, replies), EndOf(w.fate))
      ensures Ended(p, old(Source()).committed, outcome)
      ensures old(trace) <= trace && stamps == old(stamps) + Published(outcome)
      ensures table.rows == RowsAfterEdit(role, old(table.rows), job, PassOf(settings, replies), clock, w)
      ensures clock == if role == Retrier then Later(old(clock), job.notBefore) else old(clock)
    {
      outcome := WithoutPass(w.status);
      var pass := true;
      if role == Worker {
        pass := CheckRow(p, job, w);
      } else {
        Wait(job.notBefore);
        Note(Admit(Done), Admitted(p, job));
      }
      if pass {
        outcome := RunPass(p, job, settings, replies, w);
      }
    }

    /** `handle_message` and `handle_envelope`: decode, then park or handle, up to
        the commit. None is a crash. */
    method Dispatch(p: nat, settings: Settings, replies: nat -> ModelReply, w: Surroundings)
      returns (outcome: Option<Outcome>)
      requires Valid() && LogsOk(cfg, s) && Counter() == Idle && Flying(p, w)
      requires settings.backoffBase >= 0.0
      modifies this, table
      ensures outcome == AfterMessage(role, old(table.rows), old(Source().parts[p][Source().committed[p]].payload),
                                      w.status, PassOf(settings, replies), EndOf(w.fate))
      ensures Ended(p, old(Source()).committed, outcome)
      ensures old(trace) <= trace && stamps == old(stamps) + Published(outcome)
      ensures table.rows ==
              RowsAfterMessage(role, old(table.rows), old(Source().parts[p][Source().committed[p]].payload),
                               PassOf(settings, replies), clock, w)
      ensures clock == ClockAfter(role, old(Source().parts[p][Source().committed[p]].payload), old(clock))
    {
      var src := if role == Worker then raw else retry;
      var d := Decode(role, src.parts[p][src.committed[p]].payload);
      match d
      case Err(error) =>
        Note(Poll(p), Parking(p, error));
        ParkMalformed(p, error, w);
        outcome := Some(Parked);
      case Ok(job) =>
        JobOnRaw(cfg, s, role, p, job);
        Note(Poll(p), Ready(p, job));
        outcome := HandleEdit(p, job, settings, replies, w);
    }

    /** The bookkeeping of a committed message, whose fate is durable by then. */
    method Conclude(ghost p: nat, ghost committed: seq<nat>, outcome: Outcome) returns (alive: bool)
      requires p < |committed| && Inv(cfg, origin) && Ended(p, committed, Some(outcome))
      modifies this`s, this`trace, breaker
      ensures Source() == old(Source()) && old(trace) <= trace
      ensures Resolved(s, role, Coord(SourceTopic(role), p, committed[p]), outcome)
      ensures alive <==> !(outcome == TransientFailure && old(breaker.consecutiveFailures) + 1 >= cfg.breakerThreshold)
      ensures alive ==> Valid() && Counter() == Idle
      ensures !alive ==> ProcOf(s, role) == RESTARTED
      ensures InStep()
    {
      ghost var before := s;
      RunKeepsInv(cfg, origin, trace, s);
      SettlingIsResolved(cfg, s, role, p, committed, outcome);
      var tripped := Bookkeep(outcome, p);
      SettledStaysResolved(before, s, role, Coord(SourceTopic(role), p, committed[p]), outcome);
      alive := !tripped;
    }

    /** `handle_message` and `handle_envelope` with the breaker's verdict: the message
        is committed exactly when it ends in an outcome, by one offset, and that
        outcome is durable by then: the edit's row is classified, or an envelope that
        names the message and fits the outcome is on a failure topic. The process
        lives on unless it crashed uncommitted or its breaker tripped. The steps
        made lead from the state before to the state after, so two messages in a row
        are one run, and nothing there before is gone. */
    method HandleMessage(p: nat, settings: Settings, replies: nat -> ModelReply, w: Surroundings)
      returns (outcome: Option<Outcome>, alive: bool)
      requires Valid() && Inv(cfg, origin) && Counter() == Idle && Flying(p, w)
      requires settings.backoffBase >= 0.0
      modifies this, table, breaker
      ensures outcome == AfterMessage(role, old(table.rows), old(Source().parts[p][Source().committed[p]].payload),
                                      w.status, PassOf(settings, replies), EndOf(w.fate))
      ensures Source().committed == CommittedAfter(old(Source()).committed, p, outcome)
      ensures old(trace) <= trace && stamps == old(stamps) + Published(outcome)
      ensures table.rows ==
              RowsAfterMessage(role, old(table.rows), old(Source().parts[p][Source().committed[p]].payload),
                               PassOf(settings, replies), clock, w)
      ensures clock == ClockAfter(role, old(Source().parts[p][Source().committed[p]].payload), old(clock))
      ensures outcome.Some? ==>
                Resolved(s, role, Coord(SourceTopic(role), p, old(Source().committed[p])), outcome.value)
      ensures alive <==> outcome.Some? && !(outcome == Some(TransientFailure) &&
                                            old(breaker.consecutiveFailures) + 1 >= cfg.breakerThreshold)
      ensures alive ==> Valid() && Counter() == Idle
      ensures !alive ==> ProcOf(s, role) == RESTARTED
      ensures InStep() && old(trace) <= trace
      ensures Exec(cfg, old(s), trace[|old(trace)|..]) == Some(s) && Extends(old(s), s)
    {
      RunKeepsLogs(cfg, origin, trace, s);
      ghost var committed, first, before := Source().committed, s, trace;
      outcome := Dispatch(p, settings, replies, w);
      alive := false;
      if outcome.Some? {
        alive := Conclude(p, committed, outcome.value);
      }
      Continues(cfg, origin, before, first, trace, s);
    }
  }
}
