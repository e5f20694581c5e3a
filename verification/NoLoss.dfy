/** No message is lost, whichever process crashes between whichever two steps. */
module NoLoss {
  import opened Model
  import opened Failures
  import opened EditsTable
  import opened Pipeline
  import opened Invariant
  import opened Preservation

  // ------------------------------------------------------- what is still owned

  /** The first offset of partition `p` that its consumer still owes something:
      the committed offset, or the next one when the message in flight has been
      dealt with and only its commit is outstanding. */
  function Frontier(s: State, t: TopicName, p: nat): nat
    requires p < |TopicOf(s, t).committed|
  {
    TopicOf(s, t).committed[p] + if CommitOutstanding(s, t, p) then 1 else 0
  }

  predicate CommitOutstanding(s: State, t: TopicName, p: nat) {
    match t
    case Raw => s.worker.pc.Committing? && s.worker.pc.part == p
    case Retry => s.retrier.pc.Committing? && s.retrier.pc.part == p
    case Dlq => s.sweep.On? && s.sweep.pc.SweepCommitting? && s.sweep.pc.part == p && s.sweep.pc.key != SkippedOver
  }

  predicate Live(s: State, c: Coord) {
    Exists(s, c) && c.part < |TopicOf(s, c.topic).committed| && Frontier(s, c.topic, c.part) <= c.offset
  }

  /** Records someone still answers for: those their consumer has not dealt with,
      and the DLQ records a sweep skipped, left for a human. */
  predicate Active(s: State, c: Coord) {
    Exists(s, c) && (Live(s, c) || (c.topic == Dlq && c in s.skipped))
  }

  predicate ClassifiedEdit(s: State, v: Payload) {
    v.EditJson? && v.edit.id in s.table && s.table[v.edit.id].status == Classified
  }

  ghost predicate Carries(s: State, c: Coord, v: Payload) {
    Active(s, c) && c.topic != Raw && Contains(At(s, c).payload, v)
  }

  ghost predicate Held(s: State, v: Payload) {
    ClassifiedEdit(s, v) || exists c :: Carries(s, c, v)
  }

  /** Everything inside `value` is held without the record it sits in. */
  ghost predicate Released(s: State, value: Payload) {
    forall v | Contains(value, v) :: Held(s, v)
  }

  /** The safety property: a raw record the worker no longer answers for is held. */
  ghost predicate RawHeld(s: State) {
    forall c {:trigger Active(s, c)} | Exists(s, c) && c.topic == Raw && !Active(s, c) :: Held(s, At(s, c).payload)
  }

  // ------------------------------------------------------------ preservation

  /** Everything but `m`, if anything, stays active. */
  ghost predicate GivesUpOnly(s: State, s': State, m: Option<Coord>) {
    && (forall c {:trigger Active(s, c)} {:trigger Active(s', c)} | Active(s, c) && Some(c) != m :: Active(s', c))
    && (forall c {:trigger Active(s', c)} | Exists(s', c) && c.topic == Raw && !Active(s', c) :: Exists(s, c))
  }

  /** What the record given up was good for is held without it. */
  ghost predicate MadeGood(s: State, c: Coord, value: Payload) {
    if c.topic == Raw then Held(s, value) else Released(s, value)
  }

  lemma HeldStays(s: State, s': State, v: Payload, m: Option<Coord>)
    requires Extends(s, s') && Held(s, v) && GivesUpOnly(s, s', m)
    requires m.Some? ==> Exists(s, m.value) && MadeGood(s', m.value, At(s, m.value).payload)
    ensures Held(s', v)
  {
    if !ClassifiedEdit(s, v) {
      var c :| Carries(s, c, v);
      assert At(s', c) == At(s, c);
      if Some(c) == m {
        assert Contains(At(s, c).payload, v);
      } else {
        assert Carries(s', c, v);
      }
    }
  }

  lemma RawHeldStays(s: State, s': State, m: Option<Coord>)
    requires Extends(s, s') && RawHeld(s) && GivesUpOnly(s, s', m)
    requires m.Some? ==> Exists(s, m.value) && MadeGood(s', m.value, At(s, m.value).payload)
    ensures RawHeld(s')
  {
    forall c {:trigger Active(s', c)} | Exists(s', c) && c.topic == Raw && !Active(s', c)
      ensures Held(s', At(s', c).payload)
    {
      assert At(s', c) == At(s, c);
      if Some(c) != m {
        assert !Active(s, c);
        HeldStays(s, s', At(s, c).payload, m);
      }
    }
  }

  /** Frontiers that stay or move back give nothing up. */
  lemma KeepsActive(s: State, s': State)
    requires Extends(s, s')
    requires |s'.raw.committed| == |s.raw.committed| && |s'.retry.committed| == |s.retry.committed|
    requires |s'.dlq.committed| == |s.dlq.committed|
    requires forall t: TopicName, p: nat | p < |TopicOf(s, t).committed| :: Frontier(s', t, p) <= Frontier(s, t, p)
    requires forall c | Exists(s', c) && c.topic == Raw :: Exists(s, c)
    ensures GivesUpOnly(s, s', None)
  {
  }

  // ------------------------------------------------- what a step makes good

  lemma OnlyItsEdit(env: Envelope, v: Payload)
    requires env.raw.None? && Contains(EnvelopeJson(env), v)
    ensures v.EditJson? && env.edit == Good(v.edit)
  {
  }

  /** A new envelope carries all that the record it reports carried. */
  lemma EnvelopeCarriesSource(cfg: Config, t: TopicName, env: Envelope, src: Payload, v: Payload)
    requires Shape(cfg, t, env) && Follows(cfg, t, env, src)
    requires env.source != FromWorker ==> src.EnvelopeJson? && (env.reason == Malformed || src.env.raw.None?)
    requires (v == src && env.source == FromWorker) || Contains(src, v)
    ensures Contains(EnvelopeJson(env), v)
  {
    if env.reason != Malformed && env.source != FromWorker {
      OnlyItsEdit(src.env, v);
    }
  }

  /** A role's publish: the appended record is active and carries the source. */
  lemma PublishMakesGood(cfg: Config, s: State, s': State, c: Coord, env: Envelope, m: Coord)
    requires Extends(s, s') && LogsOk(cfg, s) && EnvelopeOk(cfg, s, c.topic, env) && env.kafka == m
    requires Active(s', c) && c.topic != Raw && At(s', c).payload == EnvelopeJson(env)
    ensures Exists(s, m) && MadeGood(s', m, At(s, m).payload)
  {
    var src := At(s, m).payload;
    assert RecordOk(cfg, s, m);
    forall v | (v == src && env.source == FromWorker) || Contains(src, v) ensures Held(s', v) {
      EnvelopeCarriesSource(cfg, c.topic, env, src, v);
      assert Carries(s', c, v);
    }
  }

  /** A success: the row is classified, and the record held nothing else. */
  lemma SuccessMakesGood(cfg: Config, s: State, s': State, m: Coord, edit: Edit)
    requires Extends(s, s') && LogsOk(cfg, s) && Exists(s, m) && ClassifiedEdit(s', EditJson(edit))
    requires m.topic == Raw ==> At(s, m).payload == EditJson(edit)
    requires m.topic != Raw ==> At(s, m).payload.EnvelopeJson? && At(s, m).payload.env.edit == Good(edit)
    ensures MadeGood(s', m, At(s, m).payload)
  {
    assert RecordOk(cfg, s, m);
    if m.topic != Raw {
      forall v | Contains(At(s, m).payload, v) ensures Held(s', v) {
        assert At(s, m).payload.env.raw.None?;
        OnlyItsEdit(At(s, m).payload.env, v);
      }
    }
  }

  // -------------------------------------------------------------- each step

  /** A commit that is outstanding is the commit of a record in the log. */
  predicate CommitsPending(s: State) {
    && (s.worker.pc.Committing? ==> Pending(s.raw, s.worker.pc.part))
    && (s.retrier.pc.Committing? ==> Pending(s.retry, s.retrier.pc.part))
    && (s.sweep.On? && s.sweep.pc.SweepCommitting? ==> Pending(s.dlq, s.sweep.pc.part))
  }

  lemma PublishHolds(cfg: Config, s: State, role: Role, q: nat, s': State)
    requires Inv(cfg, s) && RawHeld(s) && OnPublish(s, role, q) == Some(s') && Extends(s, s')
    ensures RawHeld(s')
  {
    var pc := ProcOf(s, role).pc;
    assert CommitsPending(s);
    var m := Message(role, s, pc.part);
    var c := Coord(pc.topic, q, |TopicOf(s, pc.topic).parts[q]|);
    PublishedPc(cfg, s, role, q, s');
    PublishMoves(s, role, q, s');
    PublishLeaves(s, s', pc.topic, q, EnvelopeJson(pc.env), c, m);
    PublishMakesGood(cfg, s, s', c, pc.env, m);
    RawHeldStays(s, s', Some(m));
  }

  /** The frontier moves past `m` and nowhere else. */
  ghost predicate OnlyPast(s: State, s': State, m: Coord) {
    && |s'.raw.committed| == |s.raw.committed| && |s'.retry.committed| == |s.retry.committed|
    && |s'.dlq.committed| == |s.dlq.committed|
    && forall t: TopicName, p: nat | p < |TopicOf(s, t).committed| ::
         if t == m.topic && p == m.part then Frontier(s', t, p) <= m.offset + 1 && Frontier(s, t, p) == m.offset
         else Frontier(s', t, p) <= Frontier(s, t, p)
  }

  lemma PublishLeaves(s: State, s': State, t: TopicName, q: nat, payload: Payload, c: Coord, m: Coord)
    requires TopicsOk(s) && CommitsPending(s) && OneMore(s, s', t, q, payload) && t != Raw
    requires OnlyPast(s, s', m) && Exists(s, m) && c == Coord(t, q, |TopicOf(s, t).parts[q]|)
    ensures GivesUpOnly(s, s', Some(m)) && Active(s', c)
    ensures Exists(s', c) && At(s', c).payload == payload
  {
    AppendExtends(s, s', t, q, payload);
    NewIsActive(s, s', t, q, payload, c, m);
    assert forall d | Active(s, d) && d != m :: Active(s', d);
  }

  /** What was just appended is its consumer's business. */
  lemma NewIsActive(s: State, s': State, t: TopicName, q: nat, payload: Payload, c: Coord, m: Coord)
    requires TopicsOk(s) && CommitsPending(s) && OneMore(s, s', t, q, payload) && t != Raw
    requires OnlyPast(s, s', m) && Exists(s, m) && c == Coord(t, q, |TopicOf(s, t).parts[q]|)
    ensures Active(s', c)
  {
    assert Frontier(s, t, q) <= |TopicOf(s, t).parts[q]|;
    assert Exists(s', c) && Live(s', c);
  }

  lemma PublishMoves(s: State, role: Role, q: nat, s': State)
    requires OnPublish(s, role, q) == Some(s') && InFlight(s, role, ProcOf(s, role).pc.part)
    ensures OnlyPast(s, s', Message(role, s, ProcOf(s, role).pc.part))
  {
    assert forall t: TopicName :: TopicOf(s', t).committed == TopicOf(s, t).committed;
    assert ProcOf(s', Other(role)) == ProcOf(s, Other(role)) && s'.sweep == s.sweep;
    assert role == Worker || role == Retrier;
  }

  /** A step of `role` that leaves the topics alone gives up at most its message,
      and only by reaching its commit. */
  lemma CounterMoves(s: State, s': State, role: Role)
    requires s'.raw == s.raw && s'.retry == s.retry && s'.dlq == s.dlq && s'.skipped == s.skipped
    requires s'.sweep == s.sweep && ProcOf(s', Other(role)) == ProcOf(s, Other(role))
    ensures var pc' := ProcOf(s', role).pc;
            if pc'.Committing? && InFlight(s, role, pc'.part)
            then GivesUpOnly(s, s', Some(Message(role, s, pc'.part)))
            else !pc'.Committing? ==> GivesUpOnly(s, s', None)
  {
  }

  lemma SaveHolds(cfg: Config, s: State, role: Role, db: DbResult, s': State)
    requires Inv(cfg, s) && RawHeld(s) && OnSave(s, role, db) == Some(s') && Extends(s, s')
    ensures RawHeld(s')
  {
    var pc := ProcOf(s, role).pc;
    SavedPc(cfg, s, role, db, s');
    SameTopics(s, s', SuccessWrite(pc.job.edit, pc.verdict, s.clock), db);
    CounterMoves(s, s', role);
    if db.Done? {
      var m := Message(role, s, pc.part);
      assert Exists(s, m) && RecordOk(cfg, s, m);
      SuccessMakesGood(cfg, s, s', m, pc.job.edit);
      RawHeldStays(s, s', Some(m));
    } else {
      RawHeldStays(s, s', None);
    }
  }

  lemma SameTopics(s: State, s': State, w: Write, db: DbResult)
    requires SameData(Attempt(s, w, db), s')
    ensures s'.raw == s.raw && s'.retry == s.retry && s'.dlq == s.dlq && s'.skipped == s.skipped
    ensures db.Done? && w.SuccessWrite? ==> ClassifiedEdit(s', EditJson(w.edit))
  {
  }

  lemma RecordHolds(cfg: Config, s: State, role: Role, db: DbResult, s': State)
    requires Inv(cfg, s) && RawHeld(s) && OnRecord(s, role, db) == Some(s') && Extends(s, s')
    ensures RawHeld(s')
  {
    var pc := ProcOf(s, role).pc;
    RecordedPc(cfg, s, role, db, s');
    SameTopics(s, s', FailureWrite(pc.job.edit, FailedReason(pc.kind), pc.error, s.clock), db);
    CounterMoves(s, s', role);
    RawHeldStays(s, s', None);
  }

  /** The worker's skip of a redelivered edit: its row is classified already. */
  lemma AdmitHolds(cfg: Config, s: State, role: Role, db: DbResult, s': State)
    requires Inv(cfg, s) && RawHeld(s) && OnAdmit(s, role, db) == Some(s') && Extends(s, s')
    ensures RawHeld(s')
  {
    var pc := ProcOf(s, role).pc;
    CounterMoves(s, s', role);
    if ProcOf(s', role).pc.Committing? {
      var m := Message(role, s, pc.part);
      assert Exists(s, m) && RecordOk(cfg, s, m);
      assert role == Worker && DecodeRaw(At(s, m).payload) == Ok(pc.job);
      SuccessMakesGood(cfg, s, s', m, pc.job.edit);
      RawHeldStays(s, s', Some(m));
    } else {
      RawHeldStays(s, s', None);
    }
  }

  /** The other steps of a role never reach a commit. */
  lemma QuietHolds(cfg: Config, s: State, role: Role, s': State)
    requires RawHeld(s) && Quiet(s, s', role) && !ProcOf(s', role).pc.Committing? && Extends(s, s')
    ensures RawHeld(s')
  {
    CounterMoves(s, s', role);
    RawHeldStays(s, s', None);
  }

  /** Committing what was dealt with moves no frontier. */
  lemma CommitHolds(s: State, role: Role, s': State)
    requires RawHeld(s) && OnCommit(s, role) == Some(s') && Extends(s, s')
    requires forall c :: Exists(s', c) <==> Exists(s, c)
    ensures RawHeld(s')
  {
    forall t: TopicName, p: nat | p < |TopicOf(s, t).committed|
      ensures Frontier(s', t, p) <= Frontier(s, t, p)
    {
      assert role == Worker || role == Retrier;
    }
    KeepsActive(s, s');
    RawHeldStays(s, s', None);
  }

  lemma QuietActNoCommit(cfg: Config, s: State, role: Role, a: Action, s': State)
    requires Act(cfg, s, role, a) == Some(s')
    requires a.Poll? || a.StartPass? || a.GetReply? || a.ChooseRoute? || a.Wrap? || a.Settle?
    ensures !ProcOf(s', role).pc.Committing?
  {
  }

  lemma ActHolds(cfg: Config, s: State, role: Role, a: Action, s': State)
    requires Inv(cfg, s) && RawHeld(s) && Act(cfg, s, role, a) == Some(s') && Extends(s, s')
    ensures RawHeld(s')
  {
    if a.Save? || a.RecordFailed? || a.Admit? {
      TableActHolds(cfg, s, role, a, s');
    } else if a.Publish? || a.Commit? {
      LogActHolds(cfg, s, role, a, s');
    } else {
      QuietActOk(cfg, s, role, a, s');
      QuietActNoCommit(cfg, s, role, a, s');
      QuietHolds(cfg, s, role, s');
    }
  }

  lemma TableActHolds(cfg: Config, s: State, role: Role, a: Action, s': State)
    requires Inv(cfg, s) && RawHeld(s) && Act(cfg, s, role, a) == Some(s') && Extends(s, s')
    requires a.Save? || a.RecordFailed? || a.Admit?
    ensures RawHeld(s')
  {
    if a.Save? {
      SaveHolds(cfg, s, role, a.db, s');
    } else if a.RecordFailed? {
      RecordHolds(cfg, s, role, a.db, s');
    } else {
      AdmitHolds(cfg, s, role, a.db, s');
    }
  }

  lemma LogActHolds(cfg: Config, s: State, role: Role, a: Action, s': State)
    requires Inv(cfg, s) && RawHeld(s) && Act(cfg, s, role, a) == Some(s') && Extends(s, s')
    requires a.Publish? || a.Commit?
    ensures RawHeld(s')
  {
    if a.Publish? {
      PublishHolds(cfg, s, role, a.part, s');
    } else {
      CommittedData(s, role, s');
      CommitHolds(s, role, s');
    }
  }

  // -------------------------------------------------------------- the sweeper

  lemma SweepCounterMoves(s: State, s': State)
    requires s'.raw == s.raw && s'.retry == s.retry && s'.dlq == s.dlq && s'.skipped == s.skipped
    requires s'.worker == s.worker && s'.retrier == s.retrier
    ensures var releases := s'.sweep.On? && s'.sweep.pc.SweepCommitting? && s'.sweep.pc.key != SkippedOver;
            if releases && Pending(s.dlq, s'.sweep.pc.part)
            then GivesUpOnly(s, s', Some(Coord(Dlq, s'.sweep.pc.part, s.dlq.committed[s'.sweep.pc.part])))
            else !releases ==> GivesUpOnly(s, s', None)
  {
  }

  lemma SweepSaveHolds(cfg: Config, s: State, db: DbResult, s': State)
    requires Inv(cfg, s) && RawHeld(s) && OnSweepSave(s, db) == Some(s') && Extends(s, s')
    ensures RawHeld(s')
  {
    var pc := s.sweep.pc;
    SameTopics(s, s', SuccessWrite(pc.job.edit, pc.verdict, s.clock), db);
    SweepCounterMoves(s, s');
    if db.Done? {
      var m := Coord(Dlq, pc.part, s.dlq.committed[pc.part]);
      assert Exists(s, m) && RecordOk(cfg, s, m);
      SuccessMakesGood(cfg, s, s', m, pc.job.edit);
      RawHeldStays(s, s', Some(m));
    } else {
      RawHeldStays(s, s', None);
    }
  }

  lemma SweepPublishMoves(s: State, q: nat, s': State)
    requires OnSweepPublish(s, q) == Some(s') && Pending(s.dlq, s.sweep.pc.part)
    ensures OnlyPast(s, s', Coord(Dlq, s.sweep.pc.part, s.dlq.committed[s.sweep.pc.part]))
    ensures OneMore(s, s', Dlq, q, EnvelopeJson(s.sweep.pc.env))
  {
  }

  lemma SweepPublishHolds(cfg: Config, s: State, q: nat, s': State)
    requires Inv(cfg, s) && RawHeld(s) && OnSweepPublish(s, q) == Some(s') && Extends(s, s')
    ensures RawHeld(s')
  {
    var pc := s.sweep.pc;
    assert CommitsPending(s);
    var m := Coord(Dlq, pc.part, s.dlq.committed[pc.part]);
    var c := Coord(Dlq, q, |s.dlq.parts[q]|);
    SweepPublishMoves(s, q, s');
    PublishLeaves(s, s', Dlq, q, EnvelopeJson(pc.env), c, m);
    PublishMakesGood(cfg, s, s', c, pc.env, m);
    RawHeldStays(s, s', Some(m));
  }

  /** A skipped record leaves the log's tail but stays accounted for. */
  lemma SweepCommitHolds(s: State, s': State)
    requires TopicsOk(s) && RawHeld(s) && OnSweepCommit(s) == Some(s') && Extends(s, s')
    requires Pending(s.dlq, s.sweep.pc.part)
    ensures RawHeld(s')
  {
    assert forall c :: Exists(s', c) <==> Exists(s, c);
    assert GivesUpOnly(s, s', None);
    RawHeldStays(s, s', None);
  }

  predicate QuietMove(m: SweepMove) {
    !m.SweepSave? && !m.SweepPublish? && !m.SweepCommit?
  }

  lemma QuietMoveLeaves(s: State, m: SweepMove, s': State)
    requires Sweeping(s, m) == Some(s') && QuietMove(m)
    ensures QuietSweep(s, s')
    ensures !(s'.sweep.On? && s'.sweep.pc.SweepCommitting? && s'.sweep.pc.key != SkippedOver)
  {
  }

  lemma MoveHolds(cfg: Config, s: State, m: SweepMove, s': State)
    requires Inv(cfg, s) && RawHeld(s) && Sweeping(s, m) == Some(s') && Extends(s, s')
    ensures RawHeld(s')
  {
    match m
    case SweepSave(db) => SweepSaveHolds(cfg, s, db, s');
    case SweepPublish(q) => SweepPublishHolds(cfg, s, q, s');
    case SweepCommit => SweepCommitHolds(s, s');
    case _ =>
      QuietMoveLeaves(s, m, s');
      SweepCounterMoves(s, s');
      RawHeldStays(s, s', None);
  }

  // ------------------------------------------------------------------- runs

  lemma ArriveHolds(cfg: Config, s: State, p: nat, payload: Payload, s': State)
    requires Inv(cfg, s) && RawHeld(s) && p < |s.raw.parts| && s' == Append(s, Raw, p, payload) && Extends(s, s')
    ensures RawHeld(s')
  {
    assert CommitsPending(s);
    ArriveLeaves(s, p, payload, s');
    RawHeldStays(s, s', None);
  }

  lemma ArriveLeaves(s: State, p: nat, payload: Payload, s': State)
    requires TopicsOk(s) && CommitsPending(s) && p < |s.raw.parts| && s' == Append(s, Raw, p, payload)
    ensures GivesUpOnly(s, s', None)
  {
  }

  lemma StepHolds(cfg: Config, s: State, e: Event, s': State)
    requires Inv(cfg, s) && RawHeld(s) && Step(cfg, s, e) == Some(s') && Extends(s, s')
    ensures RawHeld(s')
  {
    match e
    case Do(role, a) => ActHolds(cfg, s, role, a, s');
    case Move(m) => MoveHolds(cfg, s, m, s');
    case Crash(role) => QuietHolds(cfg, s, role, s');
    case Arrive(p, payload) => ArriveHolds(cfg, s, p, payload, s');
    case Tick(n) =>
      assert GivesUpOnly(s, s', None);
      RawHeldStays(s, s', None);
  }

  lemma {:induction false} RunHolds(cfg: Config, start: State, es: seq<Event>, s: State)
    requires Inv(cfg, start) && RawHeld(start) && Exec(cfg, start, es) == Some(s)
    ensures RawHeld(s)
    decreases |es|
  {
    if es != [] {
      var n := |es| - 1;
      var m := Exec(cfg, start, es[..n]).value;
      RunKeepsInv(cfg, start, es[..n], m);
      RunHolds(cfg, start, es[..n], m);
      StepKeepsInv(cfg, m, es[n], s);
      StepHolds(cfg, m, es[n], s);
    }
  }

  /** Where an edit or a payload can be found, by committed offsets alone. */
  ghost predicate Findable(s: State, c: Coord, v: Payload) {
    && Exists(s, c) && Contains(At(s, c).payload, v)
    && match c.topic
       case Raw => false
       case Retry => c.part < |s.retry.committed| && s.retry.committed[c.part] <= c.offset
       case Dlq => (c.part < |s.dlq.committed| && s.dlq.committed[c.part] <= c.offset) || c in s.skipped
  }

  /** The delivery guarantee. In every state of every run, with crashes anywhere,
      each raw record below the worker's committed offset is classified, or sits
      (itself, as its edit, or inside parked bytes) in a retry record the retrier
      has not committed, a DLQ record the sweeper has not committed, or a DLQ
      record the sweeper skipped. */
  lemma NoMessageIsLost(cfg: Config, start: State, es: seq<Event>, s: State, p: nat, o: nat)
    requires Reaches(cfg, start, es, s)
    requires InLog(s.raw, p, o) && p < |s.raw.committed| && o < s.raw.committed[p]
    ensures var v := s.raw.parts[p][o].payload;
            ClassifiedEdit(s, v) || exists c :: Findable(s, c, v)
  {
    ReachableInv(cfg, start, es, s);
    var a: nat, b: nat, c: nat, now: int :| start == Initial(a, b, c, now);
    InitialInv(cfg, a, b, c, now);
    RunHolds(cfg, start, es, s);
    var k := Coord(Raw, p, o);
    assert Exists(s, k) && !Active(s, k);
    var v := At(s, k).payload;
    if !ClassifiedEdit(s, v) {
      var d :| Carries(s, d, v);
      assert Findable(s, d, v);
    }
  }

  /** Some write made the row, for an edit that arrived. */
  lemma WrittenEdit(s: State, id: string) returns (e: Edit)
    requires s.table == ApplyAll(map[], s.writes) && TableOk(s) && id in s.table
    ensures e.id == id && OnRaw(s, e)
  {
    TableOutcome(s.writes, id);
    var i: nat :| Touches(s.writes, id, i);
    e := s.writes[i].edit;
  }

  /** The edit is in a raw record the worker has not committed. */
  ghost predicate AwaitsWorker(s: State, c: Coord, e: Edit) {
    Exists(s, c) && c.topic == Raw && c.part < |s.raw.committed| && s.raw.committed[c.part] <= c.offset &&
    At(s, c).payload == EditJson(e)
  }

  /** No orphan failures: the id of a failed row is carried by an uncommitted raw
      record, or by a record that is still findable. */
  lemma NoOrphanFailures(cfg: Config, start: State, es: seq<Event>, s: State, id: string)
    requires Reaches(cfg, start, es, s)
    requires id in s.table && s.table[id].status == Failed
    ensures exists e: Edit, c :: e.id == id && (AwaitsWorker(s, c, e) || Findable(s, c, EditJson(e)))
  {
    ReachableTable(cfg, start, es, s);
    ReachableInv(cfg, start, es, s);
    var e := WrittenEdit(s, id);
    var c :| Exists(s, c) && c.topic == Raw && At(s, c).payload == EditJson(e);
    if c.offset < s.raw.committed[c.part] {
      NoMessageIsLost(cfg, start, es, s, c.part, c.offset);
      var d :| Findable(s, d, EditJson(e));
    } else {
      assert AwaitsWorker(s, c, e);
    }
  }

  // ------------------------------------------------------------ table history

  /** At most one write was added, and the table is what it makes of the old one. */
  ghost predicate AtMostOneWrite(s: State, s': State) {
    (s'.table == s.table && s'.writes == s.writes) ||
    (exists w :: s'.table == Apply(s.table, w) && s'.writes == s.writes + [w])
  }

  lemma AttemptWrites(s: State, s': State, w: Write, db: DbResult)
    requires SameData(Attempt(s, w, db), s')
    ensures AtMostOneWrite(s, s')
  {
    assert TookEffect(db) ==> s'.table == Apply(s.table, w) && s'.writes == s.writes + [w];
  }

  lemma ActWrites(cfg: Config, s: State, role: Role, a: Action, s': State)
    requires Inv(cfg, s) && Act(cfg, s, role, a) == Some(s')
    ensures AtMostOneWrite(s, s')
  {
    var pc := ProcOf(s, role).pc;
    match a
    case Save(db) =>
      SavedPc(cfg, s, role, db, s');
      AttemptWrites(s, s', SuccessWrite(pc.job.edit, pc.verdict, s.clock), db);
    case RecordFailed(db) =>
      RecordedPc(cfg, s, role, db, s');
      AttemptWrites(s, s', FailureWrite(pc.job.edit, FailedReason(pc.kind), pc.error, s.clock), db);
    case Publish(q) => PublishedPc(cfg, s, role, q, s');
    case Commit => CommittedData(s, role, s');
    case _ => QuietActOk(cfg, s, role, a, s');
  }

  lemma MoveWrites(s: State, m: SweepMove, s': State)
    requires Sweeping(s, m) == Some(s')
    ensures AtMostOneWrite(s, s')
  {
    if m.SweepSave? {
      AttemptWrites(s, s', SuccessWrite(s.sweep.pc.job.edit, s.sweep.pc.verdict, s.clock), m.db);
    }
  }

  lemma StepWrites(cfg: Config, s: State, e: Event, s': State)
    requires Inv(cfg, s) && Step(cfg, s, e) == Some(s')
    ensures AtMostOneWrite(s, s')
  {
    match e
    case Do(role, a) => ActWrites(cfg, s, role, a, s');
    case Move(m) => MoveWrites(s, m, s');
    case _ =>
  }

  /** The table of a reachable state is what its writes, in order, make of an
      empty one; so `TableOutcome` speaks about every reachable row. */
  lemma {:induction false} RowsWereWritten(cfg: Config, start: State, es: seq<Event>, s: State)
    requires Inv(cfg, start) && start.table == map[] && start.writes == [] && Exec(cfg, start, es) == Some(s)
    ensures s.table == ApplyAll(map[], s.writes)
    decreases |es|
  {
    if es != [] {
      var n := |es| - 1;
      var m := Exec(cfg, start, es[..n]).value;
      RowsWereWritten(cfg, start, es[..n], m);
      RunKeepsInv(cfg, start, es[..n], m);
      StepWrites(cfg, m, es[n], s);
      if s.writes != m.writes {
        var w :| s.table == Apply(m.table, w) && s.writes == m.writes + [w];
        ApplyAllSnoc(map[], m.writes, w);
      }
    }
  }

  lemma ReachableTable(cfg: Config, start: State, es: seq<Event>, s: State)
    requires Reaches(cfg, start, es, s)
    ensures s.table == ApplyAll(map[], s.writes) && TableOk(s)
  {
    var a: nat, b: nat, c: nat, now: int :| start == Initial(a, b, c, now);
    InitialInv(cfg, a, b, c, now);
    RowsWereWritten(cfg, start, es, s);
    RunKeepsInv(cfg, start, es, s);
  }

  /** Every row any run can produce is the outcome of its writes. */
  lemma {:induction false} ReachableRows(cfg: Config, start: State, es: seq<Event>, s: State, id: string)
    requires Reaches(cfg, start, es, s)
    ensures RowOutcome(s.writes, id, s.table)
  {
    ReachableTable(cfg, start, es, s);
    TableOutcome(s.writes, id);
  }

  /** And it has the shape the readers of the table rely on. */
  lemma {:induction false} ReachableRowShape(cfg: Config, start: State, es: seq<Event>, s: State, id: string)
    requires Reaches(cfg, start, es, s) && id in s.table
    ensures RowShape(s.table[id])
  {
    ReachableTable(cfg, start, es, s);
    assert s.writes[..|s.writes|] == s.writes;
    ShapeOf(s.writes, id, |s.writes|);
  }

  /** Valid verdicts make well-shaped rows. */
  lemma {:induction false} ShapeOf(ws: seq<Write>, id: string, n: nat)
    requires n <= |ws|
    requires forall i | 0 <= i < |ws| :: ws[i].SuccessWrite? ==> ValidVerdict(ws[i].verdict)
    requires id in ApplyAll(map[], ws[..n])
    ensures RowShape(ApplyAll(map[], ws[..n])[id])
    decreases n
  {
    assert n > 0;
    assert ws[..n][..n - 1] == ws[..n - 1];
    if id in ApplyAll(map[], ws[..n - 1]) {
      ShapeOf(ws, id, n - 1);
    }
  }
}
