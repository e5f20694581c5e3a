/** Every step keeps the invariant, so every run does. */
module Preservation {
  import opened Model
  import opened Failures
  import opened EditsTable
  import opened Pipeline
  import opened Invariant

  ghost predicate TopicsOk(s: State) {
    TopicOk(s.raw) && TopicOk(s.retry) && TopicOk(s.dlq)
  }

  // ------------------------------------------------- what each update leaves

  /** `s'` differs from `s` in program counters and breakers only. */
  ghost predicate SameData(s: State, s': State) {
    s'.raw == s.raw && s'.retry == s.retry && s'.dlq == s.dlq && s'.table == s.table &&
    s'.clock == s.clock && s'.stamps == s.stamps && s'.writes == s.writes && s'.skipped == s.skipped
  }

  /** `s'` is `s` with one record more. */
  ghost predicate OneMore(s: State, s': State, t: TopicName, q: nat, payload: Payload) {
    q < |TopicOf(s, t).parts| && SameData(Append(s, t, q, payload), s')
  }

  /** `s'` is `s` with one write more. */
  ghost predicate OneWrite(s: State, s': State, w: Write) {
    SameData(WriteTo(s, w), s')
  }

  lemma AppendExtends(s: State, s': State, t: TopicName, q: nat, payload: Payload)
    requires OneMore(s, s', t, q, payload)
    ensures Extends(s, s')
    ensures var c := Coord(t, q, |TopicOf(s, t).parts[q]|);
            Exists(s', c) && At(s', c) == Record(payload, s.stamps) &&
            forall d | Exists(s', d) && d != c :: Exists(s, d)
  {
  }

  lemma WriteExtends(s: State, s': State, w: Write)
    requires OneWrite(s, s', w)
    ensures Extends(s, s') && w.edit.id in s'.table
    ensures w.SuccessWrite? ==> s'.table[w.edit.id].status == Classified
  {
  }

  /** Records stay good, and a new one is good if its envelope was. */
  lemma LogsKept(cfg: Config, s: State, s': State)
    requires LogsOk(cfg, s) && Extends(s, s') && forall c | Exists(s', c) :: Exists(s, c)
    ensures LogsOk(cfg, s')
  {
    forall c | Exists(s', c) ensures RecordOk(cfg, s', c) {
      RecordStaysOk(cfg, s, s', c);
    }
  }

  lemma LogsAppended(cfg: Config, s: State, s': State, t: TopicName, q: nat, payload: Payload)
    requires LogsOk(cfg, s) && OneMore(s, s', t, q, payload)
    requires t != Raw ==> payload.EnvelopeJson? && EnvelopeOk(cfg, s, t, payload.env)
    ensures LogsOk(cfg, s')
  {
    AppendExtends(s, s', t, q, payload);
    var c := Coord(t, q, |TopicOf(s, t).parts[q]|);
    forall d | Exists(s', d) ensures RecordOk(cfg, s', d) {
      if d != c {
        RecordStaysOk(cfg, s, s', d);
      } else if t != Raw {
        EnvelopeStaysOk(cfg, s, s', t, payload.env);
        var k := payload.env.kafka;
        assert Exists(s, k) && RecordOk(cfg, s, k) && At(s', k) == At(s, k);
      }
    }
  }

  lemma TableKept(s: State, s': State)
    requires TableOk(s) && Extends(s, s') && s'.table == s.table && s'.writes == s.writes
    ensures TableOk(s')
  {
    forall i | 0 <= i < |s'.writes| ensures OnRaw(s', s'.writes[i].edit) {
      KnownStays(s, s', s.writes[i].edit);
    }
  }

  lemma TableWritten(s: State, s': State, w: Write)
    requires TableOk(s) && OneWrite(s, s', w) && OnRaw(s, w.edit)
    requires w.SuccessWrite? ==> ValidVerdict(w.verdict)
    ensures TableOk(s')
  {
    WriteExtends(s, s', w);
    forall i | 0 <= i < |s'.writes| ensures OnRaw(s', s'.writes[i].edit) {
      KnownStays(s, s', s'.writes[i].edit);
    }
  }

  /** The edit of a job in flight arrived on the raw topic. */
  lemma JobOnRaw(cfg: Config, s: State, role: Role, p: nat, job: Job)
    requires LogsOk(cfg, s) && JobOk(s, role, p, job)
    ensures OnRaw(s, job.edit) && job.attempts >= 1 && (role == Retrier ==> Known(s, job.edit))
    ensures role == Retrier ==> job.attempts <= cfg.maxRetryPasses && job.notBefore.Some? && job.firstFailedAt.Some?
    ensures role == Worker ==> job == Job(job.edit, 1, None, None)
  {
    var m := Message(role, s, p);
    assert Exists(s, m) && RecordOk(cfg, s, m);
  }

  lemma SweepJobOnRaw(cfg: Config, s: State, p: nat, job: Job)
    requires LogsOk(cfg, s) && SweepJobOk(s, p, job)
    ensures Known(s, job.edit) && job.attempts >= 1 && job.firstFailedAt.Some?
  {
    var m := Coord(Dlq, p, s.dlq.committed[p]);
    assert Exists(s, m) && RecordOk(cfg, s, m);
  }

  // ---------------------------------------------------------- worker, retrier

  function Other(role: Role): Role {
    if role == Worker then Retrier else Worker
  }

  /** What a step of `role` may change, apart from appending a record or writing. */
  ghost predicate StepBy(s: State, s': State, role: Role) {
    && Extends(s, s') && TopicsOk(s')
    && s'.sweep == s.sweep && ProcOf(s', Other(role)) == ProcOf(s, Other(role))
    && s'.dlq.committed == s.dlq.committed
    && TopicOf(s', SourceTopic(Other(role))).committed == TopicOf(s, SourceTopic(Other(role))).committed
  }

  /** The parts of the invariant a step of `role` starts from. */
  ghost predicate InvFor(cfg: Config, s: State, role: Role) {
    TopicsOk(s) && LogsOk(cfg, s) && TableOk(s) && ProcOk(cfg, s, role)
  }

  lemma Assemble(cfg: Config, s: State, s': State, role: Role)
    requires Inv(cfg, s) && StepBy(s, s', role) && InvFor(cfg, s', role)
    ensures Inv(cfg, s')
  {
    ProcFrame(cfg, s, s', Other(role));
    SweepFrame(cfg, s, s');
    assert role == Worker || role == Retrier;
  }

  /** `s'` differs from `s` in the program counter and breaker of `role` only. */
  ghost predicate Quiet(s: State, s': State, role: Role) {
    SameData(s, s') && s'.sweep == s.sweep && ProcOf(s', Other(role)) == ProcOf(s, Other(role))
  }

  lemma QuietStep(cfg: Config, s: State, s': State, role: Role)
    requires InvFor(cfg, s, role) && Quiet(s, s', role) && ProcOk(cfg, s', role)
    ensures StepBy(s, s', role) && InvFor(cfg, s', role)
  {
    LogsKept(cfg, s, s');
    TableKept(s, s');
  }

  lemma PollOk(cfg: Config, s: State, role: Role, p: nat, s': State)
    requires OnPoll(s, role, p) == Some(s')
    ensures Quiet(s, s', role) && ProcOk(cfg, s', role)
  {
    assert Message(role, s', p) == Message(role, s, p);
    assert At(s', Message(role, s', p)) == At(s, Message(role, s, p));
  }

  lemma AdmitOk(cfg: Config, s: State, role: Role, db: DbResult, s': State)
    requires ProcOk(cfg, s, role) && OnAdmit(s, role, db) == Some(s')
    ensures Quiet(s, s', role) && ProcOk(cfg, s', role)
  {
    SameMessage(s, s', role, ProcOf(s, role).pc.part);
  }

  lemma StartOk(cfg: Config, s: State, role: Role, s': State)
    requires ProcOk(cfg, s, role) && OnStart(s, role) == Some(s')
    ensures Quiet(s, s', role) && ProcOk(cfg, s', role)
  {
    SameMessage(s, s', role, ProcOf(s, role).pc.part);
  }

  lemma ReplyOk(cfg: Config, s: State, role: Role, reply: Reply, s': State)
    requires ProcOk(cfg, s, role) && OnReply(s, role, reply) == Some(s')
    ensures Quiet(s, s', role) && ProcOk(cfg, s', role)
  {
    SameMessage(s, s', role, ProcOf(s, role).pc.part);
  }

  lemma ChooseOk(cfg: Config, s: State, role: Role, s': State)
    requires ProcOk(cfg, s, role) && OnChoose(cfg, s, role) == Some(s')
    ensures Quiet(s, s', role) && ProcOk(cfg, s', role)
  {
    SameMessage(s, s', role, ProcOf(s, role).pc.part);
  }

  lemma SettleOk(cfg: Config, s: State, role: Role, s': State)
    requires OnSettle(cfg, s, role) == Some(s')
    ensures Quiet(s, s', role) && ProcOk(cfg, s', role)
  {
  }

  lemma SameMessage(s: State, s': State, role: Role, p: nat)
    requires InFlight(s, role, p)
    requires TopicOf(s', SourceTopic(role)) == TopicOf(s, SourceTopic(role))
    ensures InFlight(s', role, p) && Message(role, s', p) == Message(role, s, p)
    ensures Exists(s, Message(role, s, p)) && Exists(s', Message(role, s, p))
    ensures At(s', Message(role, s, p)) == At(s, Message(role, s, p))
  {
  }

  lemma ParkedOk(cfg: Config, s: State, role: Role, p: nat, error: string)
    requires InFlight(s, role, p)
    requires role == Retrier ==> At(s, Message(role, s, p)).payload.EnvelopeJson?
    ensures var m := Message(role, s, p);
            EnvelopeOk(cfg, s, Dlq, ParkedEnvelope(SourceName(role), m, At(s, m).payload, error, s.clock))
  {
  }

  lemma RoutedOk(cfg: Config, s: State, role: Role, pc: Pc, env: Envelope)
    requires LogsOk(cfg, s) && pc.Routed? && pc == ProcOf(s, role).pc && ProcOk(cfg, s, role)
    requires env == MakeEnvelope(pc.route.reason, pc.error, SourceName(role), Message(role, s, pc.part),
                                 Some(pc.job.edit), None, pc.route.attempts, pc.job.firstFailedAt,
                                 pc.route.notBefore, s.clock)
    ensures EnvelopeOk(cfg, s, pc.route.topic, env) && Reports(env.reason, FailedOutcome(pc.kind))
  {
    JobOnRaw(cfg, s, role, pc.part, pc.job);
    var m := Message(role, s, pc.part);
    assert Exists(s, m) && RecordOk(cfg, s, m);
    assert pc.route.attempts == FailureAttempts(role, pc.job, pc.kind);
    assert Follows(cfg, pc.route.topic, env, At(s, m).payload);
  }

  lemma WrapOk(cfg: Config, s: State, role: Role, s': State)
    requires LogsOk(cfg, s) && ProcOk(cfg, s, role) && OnWrap(s, role) == Some(s')
    ensures Quiet(s, s', role) && ProcOk(cfg, s', role)
  {
    var pc, pc' := ProcOf(s, role).pc, ProcOf(s', role).pc;
    SameMessage(s, s', role, pc.part);
    WrappedOk(cfg, s, role, s');
    QuietExtends(s, s');
    EnvelopeStaysOk(cfg, s, s', pc'.topic, pc'.env);
  }

  lemma WrappedOk(cfg: Config, s: State, role: Role, s': State)
    requires LogsOk(cfg, s) && ProcOk(cfg, s, role) && OnWrap(s, role) == Some(s')
    ensures var pc' := ProcOf(s', role).pc;
            pc'.Publishing? && EnvelopeOk(cfg, s, pc'.topic, pc'.env) && Reports(pc'.env.reason, pc'.outcome)
  {
    var pc, pc' := ProcOf(s, role).pc, ProcOf(s', role).pc;
    var m := Message(role, s, pc.part);
    assert Exists(s, m) && RecordOk(cfg, s, m);
    if pc.Routed? {
      RoutedOk(cfg, s, role, pc, pc'.env);
    } else {
      ParkedOk(cfg, s, role, pc.part, pc.error);
    }
  }

  lemma QuietExtends(s: State, s': State)
    requires SameData(s, s')
    ensures Extends(s, s')
  {
  }

  /** What an attempt at a write does to everything but the program counters. */
  lemma AttemptData(cfg: Config, s: State, s': State, w: Write, db: DbResult)
    requires TopicsOk(s) && LogsOk(cfg, s) && TableOk(s) && SameData(Attempt(s, w, db), s')
    requires OnRaw(s, w.edit) && (w.SuccessWrite? ==> ValidVerdict(w.verdict))
    ensures Extends(s, s') && TopicsOk(s') && LogsOk(cfg, s') && TableOk(s')
    ensures s'.raw == s.raw && s'.retry == s.retry && s'.dlq == s.dlq && s'.clock == s.clock
    ensures db.Done? ==> w.edit.id in s'.table && (w.SuccessWrite? ==> s'.table[w.edit.id].status == Classified)
  {
    if TookEffect(db) {
      WriteExtends(s, s', w);
      TableWritten(s, s', w);
    } else {
      TableKept(s, s');
    }
    LogsKept(cfg, s, s');
  }

  lemma SavedPc(cfg: Config, s: State, role: Role, db: DbResult, s': State)
    requires ProcOk(cfg, s, role) && OnSave(s, role, db) == Some(s')
    ensures var pc := ProcOf(s, role).pc;
            pc.Saving? && SameData(Attempt(s, SuccessWrite(pc.job.edit, pc.verdict, s.clock), db), s') &&
            JobOk(s, role, pc.part, pc.job) && ValidVerdict(pc.verdict) &&
            ProcOf(s', role).pc == AfterWrite(pc.part, db, Committing(pc.part, Succeeded),
              if pc.again then None else Some(Saving(pc.part, pc.job, pc.verdict, true)))
    ensures s'.sweep == s.sweep && ProcOf(s', Other(role)) == ProcOf(s, Other(role))
  {
  }

  lemma SaveOk(cfg: Config, s: State, role: Role, db: DbResult, s': State)
    requires InvFor(cfg, s, role) && OnSave(s, role, db) == Some(s')
    ensures StepBy(s, s', role) && InvFor(cfg, s', role)
  {
    var pc := ProcOf(s, role).pc;
    SavedPc(cfg, s, role, db, s');
    JobOnRaw(cfg, s, role, pc.part, pc.job);
    AttemptData(cfg, s, s', SuccessWrite(pc.job.edit, pc.verdict, s.clock), db);
    SameMessage(s, s', role, pc.part);
  }

  lemma RecordedPc(cfg: Config, s: State, role: Role, db: DbResult, s': State)
    requires ProcOk(cfg, s, role) && OnRecord(s, role, db) == Some(s')
    ensures var pc := ProcOf(s, role).pc;
            pc.Recording? && JobOk(s, role, pc.part, pc.job) && Waited(role, pc.job, s.clock) &&
            SameData(Attempt(s, FailureWrite(pc.job.edit, FailedReason(pc.kind), pc.error, s.clock), db), s') &&
            ProcOf(s', role).pc == AfterWrite(pc.part, db, Recorded(pc.part, pc.job, pc.kind, pc.error),
              if pc.again then None else Some(Recording(pc.part, pc.job, pc.kind, pc.error, true)))
    ensures s'.sweep == s.sweep && ProcOf(s', Other(role)) == ProcOf(s, Other(role))
  {
  }

  lemma RecordFailedOk(cfg: Config, s: State, role: Role, db: DbResult, s': State)
    requires InvFor(cfg, s, role) && OnRecord(s, role, db) == Some(s')
    ensures StepBy(s, s', role) && InvFor(cfg, s', role)
  {
    var pc := ProcOf(s, role).pc;
    RecordedPc(cfg, s, role, db, s');
    JobOnRaw(cfg, s, role, pc.part, pc.job);
    AttemptData(cfg, s, s', FailureWrite(pc.job.edit, FailedReason(pc.kind), pc.error, s.clock), db);
    SameMessage(s, s', role, pc.part);
  }

  /** What an append does to everything but the program counters. */
  lemma AppendData(cfg: Config, s: State, s': State, t: TopicName, q: nat, payload: Payload)
    requires TopicsOk(s) && LogsOk(cfg, s) && TableOk(s) && OneMore(s, s', t, q, payload)
    requires t != Raw ==> payload.EnvelopeJson? && EnvelopeOk(cfg, s, t, payload.env)
    ensures Extends(s, s') && TopicsOk(s') && LogsOk(cfg, s') && TableOk(s')
    ensures s'.raw.committed == s.raw.committed && s'.retry.committed == s.retry.committed
    ensures s'.dlq.committed == s.dlq.committed
    ensures var c := Coord(t, q, |TopicOf(s, t).parts[q]|);
            Exists(s', c) && At(s', c).payload == payload
  {
    AppendExtends(s, s', t, q, payload);
    LogsAppended(cfg, s, s', t, q, payload);
    TableKept(s, s');
  }

  lemma PublishedPc(cfg: Config, s: State, role: Role, q: nat, s': State)
    requires ProcOk(cfg, s, role) && OnPublish(s, role, q) == Some(s')
    ensures var pc := ProcOf(s, role).pc;
            pc.Publishing? && OneMore(s, s', pc.topic, q, EnvelopeJson(pc.env)) && pc.topic != Raw &&
            InFlight(s, role, pc.part) && EnvelopeOk(cfg, s, pc.topic, pc.env) &&
            pc.env.kafka == Message(role, s, pc.part) && Reports(pc.env.reason, pc.outcome) &&
            ProcOf(s', role).pc == Committing(pc.part, pc.outcome)
    ensures s'.sweep == s.sweep && ProcOf(s', Other(role)) == ProcOf(s, Other(role))
  {
  }

  lemma PublishOk(cfg: Config, s: State, role: Role, q: nat, s': State)
    requires InvFor(cfg, s, role) && OnPublish(s, role, q) == Some(s')
    ensures StepBy(s, s', role) && InvFor(cfg, s', role)
  {
    var pc := ProcOf(s, role).pc;
    PublishedPc(cfg, s, role, q, s');
    AppendData(cfg, s, s', pc.topic, q, EnvelopeJson(pc.env));
    var m := Message(role, s, pc.part);
    assert Exists(s, m);
    var c := Coord(pc.topic, q, |TopicOf(s, pc.topic).parts[q]|);
    ReportedBy(s', c, m, pc.outcome);
  }

  lemma ReportedBy(s: State, c: Coord, k: Coord, outcome: Outcome)
    requires Exists(s, c) && c.topic != Raw && At(s, c).payload.EnvelopeJson?
    requires At(s, c).payload.env.kafka == k && Reports(At(s, c).payload.env.reason, outcome)
    ensures Reported(s, k, outcome)
  {
  }

  lemma CommittedData(s: State, role: Role, s': State)
    requires TopicsOk(s) && OnCommit(s, role) == Some(s') && InFlight(s, role, ProcOf(s, role).pc.part)
    ensures StepBy(s, s', role) && s'.table == s.table && s'.writes == s.writes
    ensures forall c :: Exists(s', c) <==> Exists(s, c)
  {
    var pc := ProcOf(s, role).pc;
    assert TopicOf(s', SourceTopic(role)) == Advanced(TopicOf(s, SourceTopic(role)), pc.part);
  }

  lemma CommittedPc(cfg: Config, s: State, role: Role, s': State)
    requires Extends(s, s') && ProcOk(cfg, s, role) && OnCommit(s, role) == Some(s')
    ensures ProcOk(cfg, s', role)
  {
    var pc := ProcOf(s, role).pc;
    ResolvedStays(s, s', role, Message(role, s, pc.part), pc.outcome);
  }

  lemma CommitOk(cfg: Config, s: State, role: Role, s': State)
    requires InvFor(cfg, s, role) && OnCommit(s, role) == Some(s')
    ensures StepBy(s, s', role) && InvFor(cfg, s', role)
  {
    CommittedData(s, role, s');
    CommittedPc(cfg, s, role, s');
    LogsKept(cfg, s, s');
    TableKept(s, s');
  }

  lemma ActOk(cfg: Config, s: State, role: Role, a: Action, s': State)
    requires InvFor(cfg, s, role) && Act(cfg, s, role, a) == Some(s')
    ensures StepBy(s, s', role) && InvFor(cfg, s', role)
  {
    match a
    case Save(db) => SaveOk(cfg, s, role, db, s');
    case RecordFailed(db) => RecordFailedOk(cfg, s, role, db, s');
    case Publish(q) => PublishOk(cfg, s, role, q, s');
    case Commit => CommitOk(cfg, s, role, s');
    case _ =>
      QuietActOk(cfg, s, role, a, s');
      QuietStep(cfg, s, s', role);
  }

  lemma QuietActOk(cfg: Config, s: State, role: Role, a: Action, s': State)
    requires LogsOk(cfg, s) && ProcOk(cfg, s, role) && Act(cfg, s, role, a) == Some(s')
    requires !a.Save? && !a.RecordFailed? && !a.Publish? && !a.Commit?
    ensures Quiet(s, s', role) && ProcOk(cfg, s', role)
  {
    match a
    case Poll(p) => PollOk(cfg, s, role, p, s');
    case Admit(db) => AdmitOk(cfg, s, role, db, s');
    case StartPass => StartOk(cfg, s, role, s');
    case GetReply(reply) => ReplyOk(cfg, s, role, reply, s');
    case ChooseRoute => ChooseOk(cfg, s, role, s');
    case Wrap => WrapOk(cfg, s, role, s');
    case Settle => SettleOk(cfg, s, role, s');
  }

  // ------------------------------------------------------------------ sweeper

  ghost predicate InvForSweep(cfg: Config, s: State) {
    TopicsOk(s) && LogsOk(cfg, s) && TableOk(s) && SweepOk(cfg, s)
  }

  /** What a step of the sweeper may change, apart from appending or writing. */
  ghost predicate StepBySweep(s: State, s': State) {
    Extends(s, s') && s'.worker == s.worker && s'.retrier == s.retrier &&
    s'.raw.committed == s.raw.committed && s'.retry.committed == s.retry.committed
  }

  lemma AssembleSweep(cfg: Config, s: State, s': State)
    requires Inv(cfg, s) && StepBySweep(s, s') && InvForSweep(cfg, s')
    ensures Inv(cfg, s')
  {
    ProcFrame(cfg, s, s', Worker);
    ProcFrame(cfg, s, s', Retrier);
  }

  ghost predicate QuietSweep(s: State, s': State) {
    SameData(s, s') && s'.worker == s.worker && s'.retrier == s.retrier
  }

  lemma QuietSweepStep(cfg: Config, s: State, s': State)
    requires InvForSweep(cfg, s) && QuietSweep(s, s') && SweepOk(cfg, s')
    ensures StepBySweep(s, s') && InvForSweep(cfg, s')
  {
    LogsKept(cfg, s, s');
    TableKept(s, s');
  }

  lemma SweepPollOk(cfg: Config, s: State, p: nat, s': State)
    requires SweepOk(cfg, s) && OnSweepPoll(s, p) == Some(s')
    ensures QuietSweep(s, s') && SweepOk(cfg, s')
  {
    assert Exists(s', Coord(Dlq, p, s.dlq.committed[p]));
  }

  lemma SweepReplyOk(cfg: Config, s: State, reply: Reply, s': State)
    requires SweepOk(cfg, s) && OnSweepReply(s, reply) == Some(s')
    ensures QuietSweep(s, s') && SweepOk(cfg, s')
  {
  }

  lemma SweepWrapOk(cfg: Config, s: State, s': State)
    requires LogsOk(cfg, s) && SweepOk(cfg, s) && OnSweepWrap(s) == Some(s')
    ensures QuietSweep(s, s') && SweepOk(cfg, s')
  {
    var pc := s.sweep.pc;
    SweepJobOnRaw(cfg, s, pc.part, pc.job);
    var k := Coord(Dlq, pc.part, s.dlq.committed[pc.part]);
    assert Exists(s, k) && RecordOk(cfg, s, k);
    var env := s'.sweep.pc.env;
    assert Follows(cfg, Dlq, env, At(s, k).payload);
    assert EnvelopeOk(cfg, s, Dlq, env);
    assert Extends(s, s');
    EnvelopeStaysOk(cfg, s, s', Dlq, env);
  }

  lemma SweepSaveOk(cfg: Config, s: State, db: DbResult, s': State)
    requires InvForSweep(cfg, s) && OnSweepSave(s, db) == Some(s')
    ensures StepBySweep(s, s') && InvForSweep(cfg, s')
  {
    var pc := s.sweep.pc;
    SweepJobOnRaw(cfg, s, pc.part, pc.job);
    AttemptData(cfg, s, s', SuccessWrite(pc.job.edit, pc.verdict, s.clock), db);
    assert Exists(s', Coord(Dlq, pc.part, s.dlq.committed[pc.part]));
  }

  lemma SweepPublishOk(cfg: Config, s: State, q: nat, s': State)
    requires InvForSweep(cfg, s) && OnSweepPublish(s, q) == Some(s')
    ensures StepBySweep(s, s') && InvForSweep(cfg, s')
  {
    var pc := s.sweep.pc;
    AppendData(cfg, s, s', Dlq, q, EnvelopeJson(pc.env));
    var c := Coord(Dlq, q, |s.dlq.parts[q]|);
    var k := Coord(Dlq, pc.part, s.dlq.committed[pc.part]);
    assert Exists(s, k) && Exists(s', k);
    assert Exists(s', c) && RequeueOf(At(s', c).payload, k);
    assert Swept(s', k, Requeued);
  }

  lemma SweepCommitOk(cfg: Config, s: State, s': State)
    requires InvForSweep(cfg, s) && OnSweepCommit(s) == Some(s')
    ensures StepBySweep(s, s') && InvForSweep(cfg, s')
  {
    assert forall c :: Exists(s', c) <==> Exists(s, c);
    assert Extends(s, s');
    LogsKept(cfg, s, s');
    TableKept(s, s');
  }

  lemma SweepMoveOk(cfg: Config, s: State, m: SweepMove, s': State)
    requires InvForSweep(cfg, s) && Sweeping(s, m) == Some(s')
    ensures StepBySweep(s, s') && InvForSweep(cfg, s')
  {
    match m
    case SweepStart(_) => QuietSweepStep(cfg, s, s');
    case SweepStop => QuietSweepStep(cfg, s, s');
    case SweepPoll(p) => SweepPollOk(cfg, s, p, s'); QuietSweepStep(cfg, s, s');
    case SweepReply(reply) => SweepReplyOk(cfg, s, reply, s'); QuietSweepStep(cfg, s, s');
    case SweepWrap => SweepWrapOk(cfg, s, s'); QuietSweepStep(cfg, s, s');
    case SweepSave(db) => SweepSaveOk(cfg, s, db, s');
    case SweepPublish(q) => SweepPublishOk(cfg, s, q, s');
    case SweepCommit => SweepCommitOk(cfg, s, s');
  }

  // --------------------------------------------------------------------- runs

  lemma ArriveOk(cfg: Config, s: State, p: nat, payload: Payload, s': State)
    requires Inv(cfg, s) && p < |s.raw.parts| && s' == Append(s, Raw, p, payload)
    ensures Inv(cfg, s') && Extends(s, s')
  {
    AppendData(cfg, s, s', Raw, p, payload);
    ProcFrame(cfg, s, s', Worker);
    ProcFrame(cfg, s, s', Retrier);
    SweepFrame(cfg, s, s');
  }

  lemma TickOk(cfg: Config, s: State, n: nat, s': State)
    requires Inv(cfg, s) && s' == s.(clock := s.clock + n)
    ensures Inv(cfg, s') && Extends(s, s')
  {
    assert forall c :: Exists(s', c) <==> Exists(s, c);
    assert Extends(s, s');
    LogsKept(cfg, s, s');
    TableKept(s, s');
    ProcFrame(cfg, s, s', Worker);
    ProcFrame(cfg, s, s', Retrier);
    SweepFrame(cfg, s, s');
  }

  lemma CrashOk(cfg: Config, s: State, role: Role, s': State)
    requires Inv(cfg, s) && s' == WithProc(s, role, RESTARTED)
    ensures Inv(cfg, s') && Extends(s, s')
  {
    assert InvFor(cfg, s, role);
    assert ProcOk(cfg, s', role);
    QuietStep(cfg, s, s', role);
    Assemble(cfg, s, s', role);
  }

  lemma {:induction false} StepKeepsInv(cfg: Config, s: State, e: Event, s': State)
    requires Inv(cfg, s) && Step(cfg, s, e) == Some(s')
    ensures Inv(cfg, s') && Extends(s, s')
  {
    match e
    case Do(role, a) =>
      ActOk(cfg, s, role, a, s');
      Assemble(cfg, s, s', role);
    case Move(m) =>
      SweepMoveOk(cfg, s, m, s');
      AssembleSweep(cfg, s, s');
    case Crash(role) => CrashOk(cfg, s, role, s');
    case Arrive(p, payload) => ArriveOk(cfg, s, p, payload, s');
    case Tick(n) => TickOk(cfg, s, n, s');
  }

  lemma InitialInv(cfg: Config, a: nat, b: nat, c: nat, now: int)
    ensures Inv(cfg, Initial(a, b, c, now))
  {
  }

  /** In every state of every run, crashes included, the invariant holds. */
  lemma {:induction false} RunKeepsInv(cfg: Config, start: State, es: seq<Event>, s: State)
    requires Inv(cfg, start) && Exec(cfg, start, es) == Some(s)
    ensures Inv(cfg, s) && Extends(start, s)
    decreases |es|
  {
    if es != [] {
      var n := |es| - 1;
      var m := Exec(cfg, start, es[..n]).value;
      RunKeepsInv(cfg, start, es[..n], m);
      StepKeepsInv(cfg, m, es[n], s);
      ExtendsTransitive(start, m, s);
    }
  }

  lemma ExtendsTransitive(a: State, b: State, c: State)
    requires Extends(a, b) && Extends(b, c)
    ensures Extends(a, c)
  {
    forall k | Exists(a, k) ensures Exists(c, k) && At(c, k) == At(a, k) {
      assert Exists(b, k) && At(b, k) == At(a, k);
    }
  }

  lemma ReachableInv(cfg: Config, start: State, es: seq<Event>, s: State)
    requires Reaches(cfg, start, es, s)
    ensures Inv(cfg, s)
  {
    var a: nat, b: nat, c: nat, now: int :| start == Initial(a, b, c, now);
    InitialInv(cfg, a, b, c, now);
    RunKeepsInv(cfg, start, es, s);
  }
}
