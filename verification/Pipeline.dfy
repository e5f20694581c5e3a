/** The whole system as a transition relation: worker, retrier and sweeper over
    three topics and one table.

    Every micro-step of the handlers is an event, and what the outside decides
    (the model's answer, how a statement ends, which partition a record lands in)
    is part of the event. A process can crash between any two events; a shutdown
    signal, a broker failure or a failed commit is such a crash. */
module Pipeline {
  import opened Model
  import opened Failures
  import opened EditsTable

  datatype Role = Worker | Retrier

  /** Where a handler is. `part` is the partition of the message in flight, which
      is always the record at that partition's committed offset. */
  datatype Pc =
    | Idle
    | Ready(part: nat, job: Job)
    | Admitted(part: nat, job: Job)
    | Classifying(part: nat, job: Job)
    | Saving(part: nat, job: Job, verdict: Verdict, again: bool)
    | Recording(part: nat, job: Job, kind: FailureKind, error: string, again: bool)
    | Recorded(part: nat, job: Job, kind: FailureKind, error: string)
    | Routed(part: nat, job: Job, kind: FailureKind, error: string, route: Route)
    | Parking(part: nat, error: string)
    | Publishing(part: nat, topic: TopicName, env: Envelope, outcome: Outcome)
    | Committing(part: nat, outcome: Outcome)
    | Settling(part: nat, outcome: Outcome)
    | Doomed(part: nat)

  /** A live process: `failures` is the breaker's count, `history` the outcomes
      committed since the process started. */
  datatype Proc = Proc(pc: Pc, failures: nat, history: seq<Outcome>)

  const RESTARTED: Proc := Proc(Idle, 0, [])

  datatype SweepKey = Reclassified | Requeued | SkippedOver

  datatype SweepPc =
    | Polling
    | SweepClassifying(part: nat, job: Job)
    | SweepSaving(part: nat, job: Job, verdict: Verdict, again: bool)
    | SweepFailed(part: nat, job: Job, kind: FailureKind, error: string)
    | SweepPublishing(part: nat, env: Envelope)
    | SweepCommitting(part: nat, key: SweepKey)

  /** `ends` is the run's snapshot of the end offsets. */
  datatype Sweep = Off | On(ends: seq<nat>, pc: SweepPc)

  /** `writes` lists the table's writes in the order they took effect, and
      `skipped` the DLQ records some sweep committed as skipped. */
  datatype State = State(
    raw: Topic,
    retry: Topic,
    dlq: Topic,
    table: Table,
    worker: Proc,
    retrier: Proc,
    sweep: Sweep,
    clock: int,
    stamps: nat,
    writes: seq<Write>,
    skipped: set<Coord>)

  datatype Reply = Answer(verdict: Verdict) | Fails(kind: FailureKind, error: string) | ConfigError

  datatype Action =
    | Poll(part: nat)
    | Admit(db: DbResult)
    | StartPass
    | GetReply(reply: Reply)
    | Save(db: DbResult)
    | RecordFailed(db: DbResult)
    | ChooseRoute
    | Wrap
    | Publish(part: nat)
    | Commit
    | Settle

  datatype SweepMove =
    | SweepStart(ends: seq<nat>)
    | SweepPoll(part: nat)
    | SweepReply(reply: Reply)
    | SweepSave(db: DbResult)
    | SweepWrap
    | SweepPublish(part: nat)
    | SweepCommit
    | SweepStop

  datatype Event =
    | Arrive(part: nat, payload: Payload)
    | Tick(ticks: nat)
    | Do(role: Role, action: Action)
    | Crash(role: Role)
    | Move(move: SweepMove)

  // ---------------------------------------------------------------- accessors

  function TopicOf(s: State, t: TopicName): Topic {
    match t
    case Raw => s.raw
    case Retry => s.retry
    case Dlq => s.dlq
  }

  function WithTopic(s: State, t: TopicName, x: Topic): State {
    match t
    case Raw => s.(raw := x)
    case Retry => s.(retry := x)
    case Dlq => s.(dlq := x)
  }

  function ProcOf(s: State, role: Role): Proc {
    if role == Worker then s.worker else s.retrier
  }

  function WithProc(s: State, role: Role, pr: Proc): State {
    if role == Worker then s.(worker := pr) else s.(retrier := pr)
  }

  function WithPc(s: State, role: Role, pc: Pc): State {
    WithProc(s, role, ProcOf(s, role).(pc := pc))
  }

  function SourceTopic(role: Role): TopicName {
    if role == Worker then Raw else Retry
  }

  function SourceName(role: Role): Source {
    if role == Worker then FromWorker else FromRetrier
  }

  predicate InLog(t: Topic, p: nat, o: nat) {
    p < |t.parts| && o < |t.parts[p]|
  }

  predicate Exists(s: State, c: Coord) {
    InLog(TopicOf(s, c.topic), c.part, c.offset)
  }

  function At(s: State, c: Coord): Record
    requires Exists(s, c)
  {
    TopicOf(s, c.topic).parts[c.part][c.offset]
  }

  /** Partition `p` has a record the group has not committed yet. */
  predicate Pending(t: Topic, p: nat) {
    p < |t.parts| && p < |t.committed| && t.committed[p] < |t.parts[p]|
  }

  /** The message in flight from partition `p`. */
  function Message(role: Role, s: State, p: nat): Coord
    requires p < |TopicOf(s, SourceTopic(role)).committed|
  {
    Coord(SourceTopic(role), p, TopicOf(s, SourceTopic(role)).committed[p])
  }

  // ------------------------------------------------------- primitive updates

  function Appended(t: Topic, p: nat, r: Record): Topic
    requires p < |t.parts|
  {
    t.(parts := t.parts[p := t.parts[p] + [r]])
  }

  function Advanced(t: Topic, p: nat): Topic
    requires p < |t.committed|
  {
    t.(committed := t.committed[p := t.committed[p] + 1])
  }

  function Append(s: State, t: TopicName, p: nat, payload: Payload): State
    requires p < |TopicOf(s, t).parts|
  {
    WithTopic(s, t, Appended(TopicOf(s, t), p, Record(payload, s.stamps))).(stamps := s.stamps + 1)
  }

  function WriteTo(s: State, w: Write): State {
    s.(table := Apply(s.table, w), writes := s.writes + [w])
  }

  // ----------------------------------------------------------- worker, retrier

  function Decode(role: Role, value: Payload): Result<Job> {
    if role == Worker then DecodeRaw(value) else DecodeRetry(value)
  }

  /** The attempt count a failure is routed with: the retrier adds the pass that
      just ended when it was a transient failure. */
  function FailureAttempts(role: Role, job: Job, kind: FailureKind): int {
    if role == Retrier && kind == Unavailable then job.attempts + 1 else job.attempts
  }

  function RouteOf(cfg: Config, role: Role, job: Job, kind: FailureKind, now: int): Route
    requires FailureAttempts(role, job, kind) >= 1
  {
    var n := FailureAttempts(role, job, kind);
    if kind == Unavailable then TransientDestination(cfg, n, now)
    else Route(Dlq, ParseFailed, n, None, now)
  }

  function FailedReason(kind: FailureKind): Reason {
    if kind == Unavailable then TransientExhausted else ParseFailed
  }

  function FailedOutcome(kind: FailureKind): Outcome {
    if kind == Unavailable then TransientFailure else ParseFailure
  }

  function OnPoll(s: State, role: Role, p: nat): Option<State> {
    var src := TopicOf(s, SourceTopic(role));
    if ProcOf(s, role).pc.Idle? && Pending(src, p) then
      match Decode(role, src.parts[p][src.committed[p]].payload)
      case Ok(job) => Some(WithPc(s, role, Ready(p, job)))
      case Err(error) => Some(WithPc(s, role, Parking(p, error)))
    else None
  }

  /** The worker reads the row's status and skips an edit already classified; the
      retrier goes on once `not_before` has passed. */
  function OnAdmit(s: State, role: Role, db: DbResult): Option<State> {
    var pc := ProcOf(s, role).pc;
    if !pc.Ready? then None
    else if role == Retrier then
      if pc.job.notBefore.Some? && s.clock < pc.job.notBefore.value then None
      else Some(WithPc(s, role, Admitted(pc.part, pc.job)))
    else
      match db
      case DataError(error) => Some(WithPc(s, role, Parking(pc.part, error)))
      case Done =>
        if pc.job.edit.id in s.table && s.table[pc.job.edit.id].status == Classified
        then Some(WithPc(s, role, Committing(pc.part, Skipped)))
        else Some(WithPc(s, role, Admitted(pc.part, pc.job)))
      case _ => Some(WithPc(s, role, Doomed(pc.part)))
  }

  function OnStart(s: State, role: Role): Option<State> {
    var pc := ProcOf(s, role).pc;
    if pc.Admitted? then Some(WithPc(s, role, Classifying(pc.part, pc.job))) else None
  }

  function OnReply(s: State, role: Role, reply: Reply): Option<State> {
    var pc := ProcOf(s, role).pc;
    if !pc.Classifying? then None
    else
      match reply
      case Answer(v) => if ValidVerdict(v) then Some(WithPc(s, role, Saving(pc.part, pc.job, v, false))) else None
      case Fails(kind, error) => Some(WithPc(s, role, Recording(pc.part, pc.job, kind, error, false)))
      case ConfigError => Some(WithPc(s, role, Doomed(pc.part)))
  }

  /** The table after one attempt at `w`. */
  function Attempt(s: State, w: Write, db: DbResult): State {
    if TookEffect(db) then WriteTo(s, w) else s
  }

  /** Where an attempt leaves the counter: at `next` when it went through, at a
      second attempt when the first lost its connection, doomed when the second
      did, and on the way to the DLQ when the data did not fit. */
  function AfterWrite(p: nat, db: DbResult, next: Pc, retry: Option<Pc>): Pc {
    match db
    case Done => next
    case DataError(error) => Parking(p, error)
    case _ => if retry.Some? then retry.value else Doomed(p)
  }

  function OnSave(s: State, role: Role, db: DbResult): Option<State> {
    var pc := ProcOf(s, role).pc;
    if !pc.Saving? then None
    else
      Some(WithPc(Attempt(s, SuccessWrite(pc.job.edit, pc.verdict, s.clock), db), role,
                  AfterWrite(pc.part, db, Committing(pc.part, Succeeded),
                             if pc.again then None else Some(Saving(pc.part, pc.job, pc.verdict, true)))))
  }

  function OnRecord(s: State, role: Role, db: DbResult): Option<State> {
    var pc := ProcOf(s, role).pc;
    if !pc.Recording? then None
    else
      Some(WithPc(Attempt(s, FailureWrite(pc.job.edit, FailedReason(pc.kind), pc.error, s.clock), db), role,
                  AfterWrite(pc.part, db, Recorded(pc.part, pc.job, pc.kind, pc.error),
                             if pc.again then None else Some(Recording(pc.part, pc.job, pc.kind, pc.error, true)))))
  }

  function OnChoose(cfg: Config, s: State, role: Role): Option<State> {
    var pc := ProcOf(s, role).pc;
    if pc.Recorded? && FailureAttempts(role, pc.job, pc.kind) >= 1 then
      Some(WithPc(s, role, Routed(pc.part, pc.job, pc.kind, pc.error, RouteOf(cfg, role, pc.job, pc.kind, s.clock))))
    else None
  }

  /** The envelope is built, after the route was chosen. */
  function OnWrap(s: State, role: Role): Option<State> {
    var pc := ProcOf(s, role).pc;
    var src := TopicOf(s, SourceTopic(role));
    if pc.Parking? && Pending(src, pc.part) then
      var m := Message(role, s, pc.part);
      Some(WithPc(s, role, Publishing(pc.part, Dlq,
        ParkedEnvelope(SourceName(role), m, src.parts[pc.part][m.offset].payload, pc.error, s.clock), Parked)))
    else if pc.Routed? && Pending(src, pc.part) then
      Some(WithPc(s, role, Publishing(pc.part, pc.route.topic,
        MakeEnvelope(pc.route.reason, pc.error, SourceName(role), Message(role, s, pc.part),
                     Some(pc.job.edit), None, pc.route.attempts, pc.job.firstFailedAt,
                     pc.route.notBefore, s.clock),
        FailedOutcome(pc.kind))))
    else None
  }

  /** A send the broker has acknowledged. */
  function OnPublish(s: State, role: Role, q: nat): Option<State> {
    var pc := ProcOf(s, role).pc;
    if pc.Publishing? && q < |TopicOf(s, pc.topic).parts| then
      Some(WithPc(Append(s, pc.topic, q, EnvelopeJson(pc.env)), role, Committing(pc.part, pc.outcome)))
    else None
  }

  function OnCommit(s: State, role: Role): Option<State> {
    var pr := ProcOf(s, role);
    var src := TopicOf(s, SourceTopic(role));
    if pr.pc.Committing? && pr.pc.part < |src.committed| then
      Some(WithProc(WithTopic(s, SourceTopic(role), Advanced(src, pr.pc.part)), role,
                    pr.(pc := Settling(pr.pc.part, pr.pc.outcome), history := pr.history + [pr.pc.outcome])))
    else None
  }

  /** Breaker bookkeeping, after the commit; reaching the threshold kills the
      process, which restarts with a new breaker. */
  function OnSettle(cfg: Config, s: State, role: Role): Option<State> {
    var pr := ProcOf(s, role);
    if !pr.pc.Settling? then None
    else if pr.pc.outcome == TransientFailure then
      if pr.failures + 1 >= cfg.breakerThreshold then Some(WithProc(s, role, RESTARTED))
      else Some(WithProc(s, role, pr.(pc := Idle, failures := pr.failures + 1)))
    else
      Some(WithProc(s, role, pr.(pc := Idle, failures := if Resets(pr.pc.outcome) then 0 else pr.failures)))
  }

  function Act(cfg: Config, s: State, role: Role, a: Action): Option<State> {
    match a
    case Poll(p) => OnPoll(s, role, p)
    case Admit(db) => OnAdmit(s, role, db)
    case StartPass => OnStart(s, role)
    case GetReply(reply) => OnReply(s, role, reply)
    case Save(db) => OnSave(s, role, db)
    case RecordFailed(db) => OnRecord(s, role, db)
    case ChooseRoute => OnChoose(cfg, s, role)
    case Wrap => OnWrap(s, role)
    case Publish(q) => OnPublish(s, role, q)
    case Commit => OnCommit(s, role)
    case Settle => OnSettle(cfg, s, role)
  }

  // ------------------------------------------------------------------ sweeper

  function WithSweep(s: State, pc: SweepPc): State {
    if s.sweep.On? then s.(sweep := s.sweep.(pc := pc)) else s
  }

  /** The envelope a still-failing record goes back to the DLQ tail with. */
  function RequeuedEnvelope(job: Job, kind: FailureKind, error: string, message: Coord, now: int): Envelope {
    MakeEnvelope(FailedReason(kind), error, FromSweeper, message, Some(job.edit), None,
                 job.attempts + 1, job.firstFailedAt, None, now)
  }

  /** End offsets are read once, per partition, and a partition the metadata does
      not list counts as 0. */
  predicate Snapshot(t: Topic, ends: seq<nat>) {
    |ends| == |t.parts| && forall p | 0 <= p < |ends| :: ends[p] <= |t.parts[p]|
  }

  function OnSweepPoll(s: State, p: nat): Option<State> {
    if s.sweep.On? && s.sweep.pc.Polling? && Pending(s.dlq, p) &&
       p < |s.sweep.ends| && s.dlq.committed[p] < s.sweep.ends[p] then
      match DecodeDlq(s.dlq.parts[p][s.dlq.committed[p]].payload)
      case Ok(job) => Some(WithSweep(s, SweepClassifying(p, job)))
      case Err(_) => Some(WithSweep(s, SweepCommitting(p, SkippedOver)))
    else None
  }

  function OnSweepReply(s: State, reply: Reply): Option<State> {
    if s.sweep.On? && s.sweep.pc.SweepClassifying? then
      var pc := s.sweep.pc;
      match reply
      case Answer(v) => if ValidVerdict(v) then Some(WithSweep(s, SweepSaving(pc.part, pc.job, v, false))) else None
      case Fails(kind, error) => Some(WithSweep(s, SweepFailed(pc.part, pc.job, kind, error)))
      case ConfigError => Some(s.(sweep := Off))
    else None
  }

  function OnSweepSave(s: State, db: DbResult): Option<State> {
    if s.sweep.On? && s.sweep.pc.SweepSaving? then
      var pc := s.sweep.pc;
      var written := Attempt(s, SuccessWrite(pc.job.edit, pc.verdict, s.clock), db);
      match db
      case Done => Some(WithSweep(written, SweepCommitting(pc.part, Reclassified)))
      case DataError(_) => Some(WithSweep(written, SweepCommitting(pc.part, SkippedOver)))
      case _ => Some(if pc.again then written.(sweep := Off)
                     else WithSweep(written, SweepSaving(pc.part, pc.job, pc.verdict, true)))
    else None
  }

  function OnSweepWrap(s: State): Option<State> {
    if s.sweep.On? && s.sweep.pc.SweepFailed? && s.sweep.pc.part < |s.dlq.committed| then
      var pc := s.sweep.pc;
      Some(WithSweep(s, SweepPublishing(pc.part,
        RequeuedEnvelope(pc.job, pc.kind, pc.error, Coord(Dlq, pc.part, s.dlq.committed[pc.part]), s.clock))))
    else None
  }

  function OnSweepPublish(s: State, q: nat): Option<State> {
    if s.sweep.On? && s.sweep.pc.SweepPublishing? && q < |s.dlq.parts| then
      Some(WithSweep(Append(s, Dlq, q, EnvelopeJson(s.sweep.pc.env)), SweepCommitting(s.sweep.pc.part, Requeued)))
    else None
  }

  /** The commit names the record's own offset. */
  function OnSweepCommit(s: State): Option<State> {
    if s.sweep.On? && s.sweep.pc.SweepCommitting? && s.sweep.pc.part < |s.dlq.committed| then
      var pc := s.sweep.pc;
      var done := s.(dlq := Advanced(s.dlq, pc.part),
                     skipped := if pc.key == SkippedOver
                                then s.skipped + {Coord(Dlq, pc.part, s.dlq.committed[pc.part])}
                                else s.skipped);
      Some(WithSweep(done, Polling))
    else None
  }

  function Sweeping(s: State, m: SweepMove): Option<State> {
    match m
    case SweepStart(ends) =>
      if s.sweep.Off? && Snapshot(s.dlq, ends) then Some(s.(sweep := On(ends, Polling))) else None
    case SweepPoll(p) => OnSweepPoll(s, p)
    case SweepReply(reply) => OnSweepReply(s, reply)
    case SweepSave(db) => OnSweepSave(s, db)
    case SweepWrap => OnSweepWrap(s)
    case SweepPublish(q) => OnSweepPublish(s, q)
    case SweepCommit => OnSweepCommit(s)
    case SweepStop => Some(s.(sweep := Off))
  }

  // --------------------------------------------------------------------- runs

  /** The state after `e`, or None when `e` cannot happen in `s`. */
  function Step(cfg: Config, s: State, e: Event): Option<State> {
    match e
    case Arrive(p, payload) => if p < |s.raw.parts| then Some(Append(s, Raw, p, payload)) else None
    case Tick(n) => Some(s.(clock := s.clock + n))
    case Do(role, a) => Act(cfg, s, role, a)
    case Crash(role) => Some(WithProc(s, role, RESTARTED))
    case Move(m) => Sweeping(s, m)
  }

  function EmptyTopic(partitions: nat): Topic {
    Topic(seq(partitions, _ => []), seq(partitions, _ => 0))
  }

  function Initial(rawParts: nat, retryParts: nat, dlqParts: nat, now: int): State {
    State(EmptyTopic(rawParts), EmptyTopic(retryParts), EmptyTopic(dlqParts), map[],
          RESTARTED, RESTARTED, Off, now, 0, [], {})
  }

  function Exec(cfg: Config, s: State, es: seq<Event>): Option<State> {
    if es == [] then Some(s)
    else
      match Exec(cfg, s, es[..|es| - 1])
      case Some(m) => Step(cfg, m, es[|es| - 1])
      case None => None
  }

  lemma ExecSnoc(cfg: Config, s: State, es: seq<Event>, e: Event)
    ensures Exec(cfg, s, es + [e]) ==
            match Exec(cfg, s, es) { case Some(m) => Step(cfg, m, e) case None => None }
  {
    assert (es + [e])[..|es|] == es;
  }

  lemma {:induction false} ExecConcat(cfg: Config, s: State, es: seq<Event>, fs: seq<Event>)
    ensures Exec(cfg, s, es + fs) ==
            match Exec(cfg, s, es) { case Some(m) => Exec(cfg, m, fs) case None => None }
    decreases |fs|
  {
    if fs == [] {
      assert es + fs == es;
    } else {
      var n := |fs| - 1;
      assert (es + fs)[..|es| + n] == es + fs[..n];
      assert (es + fs)[|es + fs| - 1] == fs[n];
      ExecConcat(cfg, s, es, fs[..n]);
    }
  }

  /** `s` is a state some run reaches from empty topics and an empty table. */
  ghost predicate Reaches(cfg: Config, start: State, es: seq<Event>, s: State) {
    (exists a: nat, b: nat, c: nat, now: int :: start == Initial(a, b, c, now)) &&
    Exec(cfg, start, es) == Some(s)
  }
}
