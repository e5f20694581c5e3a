/** The drain loop is a run of the transition relation, turn by turn and with
    whatever the rest of the system does in between: so what holds in every
    reachable state holds during and after the sweeps this loop makes. */
module SweepSteps {
  import opened Model
  import opened Failures
  import opened EditsTable
  import opened Pipeline
  import opened Preservation
  import opened Sweeper

  ghost predicate SameRecords(parts: seq<seq<Record>>, payloads: seq<seq<Payload>>) {
    |parts| == |payloads| &&
    forall p | 0 <= p < |parts| ::
      |parts[p]| == |payloads[p]| && forall o | 0 <= o < |parts[p]| :: parts[p][o].payload == payloads[p][o]
  }

  /** The same DLQ, commits and table, seen by the system and by the loop. */
  ghost predicate SameWorld(s: State, r: Run) {
    SameRecords(s.dlq.parts, r.parts) && s.dlq.committed == r.committed && s.table == r.rows
  }

  /** The loop is at its head. */
  ghost predicate Mirrors(s: State, r: Run) {
    SameWorld(s, r) && s.sweep == On(r.ends, Polling)
  }

  lemma Extend(cfg: Config, s: State, es: seq<Event>, m: State, e: Event) returns (es': seq<Event>, m': State)
    requires Exec(cfg, s, es) == Some(m) && Step(cfg, m, e).Some?
    ensures es' == es + [e] && Exec(cfg, s, es') == Some(m') && Some(m') == Step(cfg, m, e)
  {
    ExecSnoc(cfg, s, es, e);
    es', m' := es + [e], Step(cfg, m, e).value;
  }

  /** The attempts at the verdict's write that the turn comes to. */
  function SaveEvents(turn: Turn): seq<Event> {
    match turn.written
    case Written => [Move(SweepSave(Done))]
    case Rejected(error) =>
      if turn.tookEffect then [Move(SweepSave(LostAfter)), Move(SweepSave(DataError(error)))]
      else [Move(SweepSave(DataError(error)))]
    case ConnectionLost =>
      [Move(SweepSave(if turn.tookEffect then LostAfter else LostBefore)), Move(SweepSave(LostBefore))]
  }

  /** The moves of a turn over the record `value` of partition `p`. */
  function TurnEvents(value: Payload, turn: Turn, p: nat, q: nat): seq<Event> {
    if DecodeDlq(value).Err? then [Move(SweepPoll(p)), Move(SweepCommit)]
    else
      [Move(SweepPoll(p)), Move(SweepReply(turn.reply))] +
      match turn.reply
      case ConfigError => []
      case Fails(_, _) => [Move(SweepWrap), Move(SweepPublish(q)), Move(SweepCommit)]
      case Answer(_) => SaveEvents(turn) + if turn.written.ConnectionLost? then [] else [Move(SweepCommit)]
  }

  lemma CommitMirrors(cfg: Config, s: State, es: seq<Event>, m: State, r: Run, h: Handled)
    returns (es': seq<Event>, s': State)
    requires Exec(cfg, s, es) == Some(m) && SameWorld(m, r) && h.part < |r.committed| == |r.parts|
    requires m.sweep == On(r.ends, SweepCommitting(h.part, h.key)) && h.offset == r.committed[h.part]
    ensures es' == es + [Move(SweepCommit)]
    ensures Exec(cfg, s, es') == Some(s') && Mirrors(s', Finished(r, h)) && s'.raw == m.raw && s'.retry == m.retry
  {
    es', s' := Extend(cfg, s, es, m, Move(SweepCommit));
    CommittedWorld(m, s', r, h);
  }

  lemma CommittedWorld(m: State, s': State, r: Run, h: Handled)
    requires SameWorld(m, r) && h.part < |r.committed| == |r.parts| && h.offset == r.committed[h.part]
    requires m.sweep == On(r.ends, SweepCommitting(h.part, h.key)) && OnSweepCommit(m) == Some(s')
    ensures Mirrors(s', Finished(r, h)) && s'.raw == m.raw && s'.retry == m.retry
  {
    assert s'.dlq == Advanced(m.dlq, h.part);
  }

  /** The table after a write that ended as the turn says, and where it leaves the
      sweep; a lost connection is one repetition. */
  lemma SaveMirrors(cfg: Config, s: State, es: seq<Event>, m: State, r: Run, p: nat, job: Job, turn: Turn)
    returns (es': seq<Event>, s': State)
    requires Exec(cfg, s, es) == Some(m) && SameWorld(m, r) && turn.reply.Answer? && turn.now == m.clock
    requires m.sweep == On(r.ends, SweepSaving(p, job, turn.reply.verdict, false))
    ensures es' == es + SaveEvents(turn)
    ensures Exec(cfg, s, es') == Some(s') && s'.raw == m.raw && s'.retry == m.retry
    ensures s'.sweep == if turn.written.ConnectionLost? then Off
                        else On(r.ends, SweepCommitting(p, if turn.written.Written? then Reclassified else SkippedOver))
    ensures SameWorld(s', if turn.written.Written? || turn.tookEffect
                          then r.(rows := Apply(r.rows, SuccessWrite(job.edit, turn.reply.verdict, turn.now))) else r)
  {
    match turn.written
    case Written =>
      es', s' := Extend(cfg, s, es, m, Move(SweepSave(Done)));
    case Rejected(error) =>
      es', s' := es, m;
      if turn.tookEffect {
        es', s' := Extend(cfg, s, es, m, Move(SweepSave(LostAfter)));
      }
      es', s' := Extend(cfg, s, es', s', Move(SweepSave(DataError(error))));
    case ConnectionLost =>
      es', s' := Extend(cfg, s, es, m, Move(SweepSave(if turn.tookEffect then LostAfter else LostBefore)));
      es', s' := Extend(cfg, s, es', s', Move(SweepSave(LostBefore)));
  }

  lemma PublishMirrors(cfg: Config, s: State, es: seq<Event>, m: State, r: Run, p: nat, job: Job, turn: Turn, q: nat)
    returns (es': seq<Event>, s': State)
    requires Exec(cfg, s, es) == Some(m) && SameWorld(m, r) && turn.reply.Fails? && turn.now == m.clock
    requires m.sweep == On(r.ends, SweepFailed(p, job, turn.reply.kind, turn.reply.error))
    requires p < |r.committed| && q < |r.parts|
    ensures es' == es + [Move(SweepWrap), Move(SweepPublish(q))]
    ensures Exec(cfg, s, es') == Some(s') && s'.sweep == On(r.ends, SweepCommitting(p, Requeued))
    ensures s'.raw == m.raw && s'.retry == m.retry
    ensures var out := EnvelopeJson(RequeuedEnvelope(job, turn.reply.kind, turn.reply.error,
                                                     Coord(Dlq, p, r.committed[p]), turn.now));
            SameWorld(s', Republished(r, q, out))
  {
    es', s' := Extend(cfg, s, es, m, Move(SweepWrap));
    es', s' := Extend(cfg, s, es', s', Move(SweepPublish(q)));
  }

  /** What a turn over the record at the committed offset of `p` makes of `s`. */
  ghost predicate Turned(s: State, r: Run, p: nat, turn: Turn, s': State)
    requires p < |r.parts| && p < |r.committed| && r.committed[p] < |r.parts[p]|
  {
    && s'.raw == s.raw && s'.retry == s.retry && SameWorld(s', HandledRun(r, p, turn))
    && if Aborts(r.parts[p][r.committed[p]], turn) then s'.sweep == Off && s'.dlq.committed == s.dlq.committed
       else s'.sweep == On(r.ends, Polling)
  }

  /** The record at the committed offset of `p` is the next to be handled. */
  ghost predicate Handling(s: State, r: Run, p: nat) {
    SameWorld(s, r) && |r.parts| == |r.committed| == |r.ends| && p < |r.parts| &&
    r.committed[p] < |r.parts[p]| && r.committed[p] < r.ends[p]
  }

  lemma SkippedTurn(cfg: Config, s: State, es: seq<Event>, m: State, r: Run, p: nat, turn: Turn)
    returns (es': seq<Event>, s': State)
    requires Exec(cfg, s, es) == Some(m) && Handling(m, r, p) && DecodeDlq(r.parts[p][r.committed[p]]).Err?
    requires m.sweep == On(r.ends, SweepCommitting(p, SkippedOver))
    ensures es' == es + [Move(SweepCommit)] && Exec(cfg, s, es') == Some(s') && Turned(m, r, p, turn, s')
  {
    es', s' := CommitMirrors(cfg, s, es, m, r, EntryOf(r, p, turn));
  }

  lemma FailedTurn(cfg: Config, s: State, es: seq<Event>, m: State, r: Run, p: nat, turn: Turn, job: Job)
    returns (es': seq<Event>, s': State)
    requires Exec(cfg, s, es) == Some(m) && Handling(m, r, p) && turn.reply.Fails? && turn.now == m.clock
    requires DecodeDlq(r.parts[p][r.committed[p]]) == Ok(job)
    requires m.sweep == On(r.ends, SweepFailed(p, job, turn.reply.kind, turn.reply.error))
    ensures es' == es + [Move(SweepWrap), Move(SweepPublish(TargetOf(r, p, turn))), Move(SweepCommit)]
    ensures Exec(cfg, s, es') == Some(s') && Turned(m, r, p, turn, s')
  {
    es', s' := PublishMirrors(cfg, s, es, m, r, p, job, turn, TargetOf(r, p, turn));
    es', s' := CommitMirrors(cfg, s, es', s', Worked(r, p, turn), EntryOf(r, p, turn));
  }

  lemma AnsweredTurn(cfg: Config, s: State, es: seq<Event>, m: State, r: Run, p: nat, turn: Turn, job: Job)
    returns (es': seq<Event>, s': State)
    requires Exec(cfg, s, es) == Some(m) && Handling(m, r, p) && turn.reply.Answer? && turn.now == m.clock
    requires DecodeDlq(r.parts[p][r.committed[p]]) == Ok(job)
    requires m.sweep == On(r.ends, SweepSaving(p, job, turn.reply.verdict, false))
    ensures es' == es + SaveEvents(turn) + if turn.written.ConnectionLost? then [] else [Move(SweepCommit)]
    ensures Exec(cfg, s, es') == Some(s') && Turned(m, r, p, turn, s')
  {
    es', s' := SaveMirrors(cfg, s, es, m, r, p, job, turn);
    if !turn.written.ConnectionLost? {
      es', s' := CommitMirrors(cfg, s, es', s', Worked(r, p, turn), EntryOf(r, p, turn));
    }
  }

  /** Where reading a record leaves the sweep. */
  function AfterPoll(r: Run, p: nat): Sweep
    requires p < |r.parts| && p < |r.committed| && r.committed[p] < |r.parts[p]|
  {
    match DecodeDlq(r.parts[p][r.committed[p]])
    case Err(_) => On(r.ends, SweepCommitting(p, SkippedOver))
    case Ok(job) => On(r.ends, SweepClassifying(p, job))
  }

  /** Where a reply leaves it. */
  function AfterReply(ends: seq<nat>, p: nat, job: Job, reply: Reply): Sweep {
    match reply
    case ConfigError => Off
    case Fails(kind, error) => On(ends, SweepFailed(p, job, kind, error))
    case Answer(v) => On(ends, SweepSaving(p, job, v, false))
  }

  /** The first move of a turn: the record is read. */
  lemma Opening(cfg: Config, s: State, r: Run, p: nat) returns (es: seq<Event>, m: State)
    requires Mirrors(s, r) && Handling(s, r, p)
    ensures es == [Move(SweepPoll(p))] && Exec(cfg, s, es) == Some(m)
    ensures m == s.(sweep := AfterPoll(r, p))
  {
    m := Polled(s, r, p);
    es, m := Extend(cfg, s, [], s, Move(SweepPoll(p)));
  }

  /** The second, when the record decodes: it is classified. */
  lemma Hearing(cfg: Config, s: State, es: seq<Event>, m: State, job: Job, p: nat, turn: Turn)
    returns (es': seq<Event>, m': State)
    requires Exec(cfg, s, es) == Some(m) && m.sweep.On? && m.sweep.pc == SweepClassifying(p, job)
    requires turn.reply.Answer? ==> ValidVerdict(turn.reply.verdict)
    ensures es' == es + [Move(SweepReply(turn.reply))] && Exec(cfg, s, es') == Some(m')
    ensures m' == m.(sweep := AfterReply(m.sweep.ends, p, job, turn.reply))
  {
    m' := Replied(m, job, p, turn);
    es', m' := Extend(cfg, s, es, m, Move(SweepReply(turn.reply)));
  }

  lemma Polled(s: State, r: Run, p: nat) returns (m: State)
    requires Mirrors(s, r) && Handling(s, r, p)
    ensures OnSweepPoll(s, p) == Some(m) && m == s.(sweep := AfterPoll(r, p))
  {
    m := OnSweepPoll(s, p).value;
  }

  lemma Replied(s: State, job: Job, p: nat, turn: Turn) returns (m: State)
    requires s.sweep.On? && s.sweep.pc == SweepClassifying(p, job)
    requires turn.reply.Answer? ==> ValidVerdict(turn.reply.verdict)
    ensures OnSweepReply(s, turn.reply) == Some(m) && m == s.(sweep := AfterReply(s.sweep.ends, p, job, turn.reply))
  {
    m := OnSweepReply(s, turn.reply).value;
  }

  /** One turn of the loop over a record below the snapshot is a run of sweeper
      moves, to a state that mirrors what the loop made of its own variables; a
      turn that aborts ends with the sweep off and nothing committed. */
  lemma TurnIsARun(cfg: Config, s: State, r: Run, p: nat, turn: Turn) returns (es: seq<Event>, s': State)
    requires Mirrors(s, r) && Handling(s, r, p)
    requires turn.now == s.clock && (turn.reply.Answer? ==> ValidVerdict(turn.reply.verdict))
    ensures es == TurnEvents(r.parts[p][r.committed[p]], turn, p, TargetOf(r, p, turn))
    ensures Exec(cfg, s, es) == Some(s') && Turned(s, r, p, turn, s')
  {
    es, s' := Opening(cfg, s, r, p);
    match DecodeDlq(r.parts[p][r.committed[p]])
    case Err(_) => es, s' := SkippedTurn(cfg, s, es, s', r, p, turn);
    case Ok(job) =>
      es, s' := Hearing(cfg, s, es, s', job, p, turn);
      match turn.reply
      case ConfigError =>
      case Fails(_, _) => es, s' := FailedTurn(cfg, s, es, s', r, p, turn, job);
      case Answer(_) => es, s' := AnsweredTurn(cfg, s, es, s', r, p, turn, job);
  }

  // -------------------------------------------------------- one step of a loop

  /** The moves that a step of the loop makes; reading past the snapshot, pausing
      and leaving a record change nothing the system holds. */
  function EventsOf(r: Run, x: LoopStep): seq<Event>
    requires Enabled(r, x)
  {
    if x.TakeAt? then
      TurnEvents(r.parts[x.part][r.committed[x.part]], x.turn, x.part, TargetOf(r, x.part, x.turn))
    else []
  }

  /** The turn's time is the system's, and a verdict is one `classify` can give. */
  predicate Suits(s: State, x: LoopStep) {
    x.TakeAt? ==> x.turn.now == s.clock && (x.turn.reply.Answer? ==> ValidVerdict(x.turn.reply.verdict))
  }

  lemma LoopStepIsARun(cfg: Config, s: State, r: Run, x: LoopStep) returns (s': State)
    requires Mirrors(s, r) && LoopInv(r) && !x.Other? && Enabled(r, x) && Suits(s, x)
    ensures Exec(cfg, s, EventsOf(r, x)) == Some(s') && SameWorld(s', After(r, x))
    ensures s'.sweep == if x.TakeAt? && Ends(r, x) then Off else On(r.ends, Polling)
    ensures Ends(r, x) ==> s'.dlq.committed == s.dlq.committed
    ensures Ledger(After(r, x)) && Counted(After(r, x), 0) && (!Ends(r, x) ==> LoopInv(After(r, x)))
  {
    AfterOk(r, x);
    s' := s;
    if x.TakeAt? {
      s' := TakeIsARun(cfg, s, r, x.part, x.turn);
    }
  }

  lemma TakeIsARun(cfg: Config, s: State, r: Run, p: nat, turn: Turn) returns (s': State)
    requires Mirrors(s, r) && LoopInv(r) && Takeable(r, p) && Suits(s, TakeAt(p, turn))
    ensures Exec(cfg, s, EventsOf(r, TakeAt(p, turn))) == Some(s') && Turned(s, Read(r, p), p, turn, s')
  {
    assert PositionOk(r, p);
    var es;
    es, s' := TurnIsARun(cfg, s, Read(r, p), p, turn);
  }

  // -------------------------------------------- the rest of the system meanwhile

  /** What an event of the rest of the system shows to the loop, if anything. */
  function Seen(s: State, e: Event): Option<Meanwhile> {
    if !e.Do? then None
    else
      var pc, a := ProcOf(s, e.role).pc, e.action;
      if a.Publish? && pc.Publishing? && pc.topic == Dlq then Some(Appends(a.part, EnvelopeJson(pc.env)))
      else if a.Save? && pc.Saving? && TookEffect(a.db) then
        Some(Writes(SuccessWrite(pc.job.edit, pc.verdict, s.clock)))
      else if a.RecordFailed? && pc.Recording? && TookEffect(a.db) then
        Some(Writes(FailureWrite(pc.job.edit, FailedReason(pc.kind), pc.error, s.clock)))
      else None
  }

  /** `m` is all that changes of the DLQ and the table. */
  predicate Shows(s: State, m: Option<Meanwhile>, s': State) {
    match m
    case None => s'.dlq == s.dlq && s'.table == s.table
    case Some(Appends(q, value)) =>
      s'.table == s.table && q < |s.dlq.parts| && s'.dlq == Appended(s.dlq, q, Record(value, s.stamps))
    case Some(Writes(w)) => s'.dlq == s.dlq && s'.table == Apply(s.table, w)
  }

  lemma PublishIsSeen(s: State, role: Role, q: nat, s': State)
    requires OnPublish(s, role, q) == Some(s')
    ensures s'.sweep == s.sweep && Shows(s, Seen(s, Do(role, Publish(q))), s')
  {
  }

  lemma SaveIsSeen(s: State, role: Role, db: DbResult, s': State)
    requires OnSave(s, role, db) == Some(s')
    ensures s'.sweep == s.sweep && Shows(s, Seen(s, Do(role, Save(db))), s')
  {
  }

  lemma RecordIsSeen(s: State, role: Role, db: DbResult, s': State)
    requires OnRecord(s, role, db) == Some(s')
    ensures s'.sweep == s.sweep && Shows(s, Seen(s, Do(role, RecordFailed(db))), s')
  {
  }

  /** The other steps of worker and retrier do not show. */
  lemma RestIsUnseen(cfg: Config, s: State, role: Role, a: Action, s': State)
    requires Act(cfg, s, role, a) == Some(s') && !a.Publish? && !a.Save? && !a.RecordFailed?
    ensures s'.sweep == s.sweep && s'.dlq == s.dlq && s'.table == s.table
  {
  }

  lemma ActIsSeen(cfg: Config, s: State, role: Role, a: Action, s': State)
    requires Act(cfg, s, role, a) == Some(s')
    ensures s'.sweep == s.sweep && Shows(s, Seen(s, Do(role, a)), s')
  {
    if a.Publish? {
      PublishIsSeen(s, role, a.part, s');
    } else if a.Save? {
      SaveIsSeen(s, role, a.db, s');
    } else if a.RecordFailed? {
      RecordIsSeen(s, role, a.db, s');
    } else {
      RestIsUnseen(cfg, s, role, a, s');
    }
  }

  lemma EventIsSeen(cfg: Config, s: State, e: Event, s': State)
    requires Step(cfg, s, e) == Some(s') && !e.Move?
    ensures s'.sweep == s.sweep && Shows(s, Seen(s, e), s')
  {
    match e
    case Do(role, a) => ActIsSeen(cfg, s, role, a, s');
    case _ =>
  }

  /** The loop's view of the world follows. */
  function Told(r: Run, m: Option<Meanwhile>): Option<Run> {
    if m.None? then Some(r) else if Enabled(r, Other(m.value)) then Some(After(r, Other(m.value))) else None
  }

  lemma SystemMirrors(s: State, r: Run, m: Option<Meanwhile>, s': State)
    requires Mirrors(s, r) && LoopInv(r) && Shows(s, m, s') && s'.sweep == s.sweep
    ensures Told(r, m).Some? && Mirrors(s', Told(r, m).value) && LoopInv(Told(r, m).value)
  {
    if m.Some? {
      AfterOk(r, Other(m.value));
    }
  }

  // ---------------------------------------------------------------- whole sweeps

  /** What a sweep's time is made of: steps of its loop, and events of the rest of
      the system. */
  datatype Happening = Loop(x: LoopStep) | System(e: Event)

  datatype World = World(s: State, r: Run)

  /** The system and the loop's variables after `h`, or None when it cannot happen. */
  function Next(cfg: Config, w: World, h: Happening): Option<World> {
    match h
    case System(e) =>
      if e.Move? then None
      else
        var s', r' := Step(cfg, w.s, e), Told(w.r, Seen(w.s, e));
        if s'.Some? && r'.Some? then Some(World(s'.value, r'.value)) else None
    case Loop(x) =>
      if x.Other? || !Enabled(w.r, x) || !Suits(w.s, x) then None
      else
        var s' := Exec(cfg, w.s, EventsOf(w.r, x));
        if s'.Some? then Some(World(s'.value, After(w.r, x))) else None
  }

  /** No step so far has ended the run. */
  function Unfold(cfg: Config, w: World, hs: seq<Happening>): Option<World> {
    if hs == [] then Some(w)
    else
      var h := hs[|hs| - 1];
      match Unfold(cfg, w, hs[..|hs| - 1])
      case Some(m) => if h.Loop? && Enabled(m.r, h.x) && Ends(m.r, h.x) then None else Next(cfg, m, h)
      case None => None
  }

  lemma NextMirrors(cfg: Config, w: World, h: Happening, w': World) returns (es: seq<Event>)
    requires Mirrors(w.s, w.r) && LoopInv(w.r) && Next(cfg, w, h) == Some(w')
    requires h.Loop? && Enabled(w.r, h.x) ==> !Ends(w.r, h.x)
    ensures Exec(cfg, w.s, es) == Some(w'.s) && Mirrors(w'.s, w'.r) && LoopInv(w'.r)
  {
    match h
    case System(e) =>
      EventIsSeen(cfg, w.s, e, w'.s);
      SystemMirrors(w.s, w.r, Seen(w.s, e), w'.s);
      var m;
      es, m := Extend(cfg, w.s, [], w.s, e);
    case Loop(x) =>
      es := EventsOf(w.r, x);
      var s' := LoopStepIsARun(cfg, w.s, w.r, x);
  }

  /** Nothing that the loop or the system can do next fails to happen to both. */
  lemma NothingIsStuck(cfg: Config, w: World, h: Happening)
    requires Mirrors(w.s, w.r) && LoopInv(w.r)
    requires match h
             case System(e) => !e.Move? && Step(cfg, w.s, e).Some?
             case Loop(x) => !x.Other? && Enabled(w.r, x) && Suits(w.s, x)
    ensures Next(cfg, w, h).Some?
  {
    match h
    case System(e) =>
      var s' := Step(cfg, w.s, e).value;
      EventIsSeen(cfg, w.s, e, s');
      SystemMirrors(w.s, w.r, Seen(w.s, e), s');
    case Loop(x) =>
      var s' := LoopStepIsARun(cfg, w.s, w.r, x);
  }

  /** The loop's variables when a run begins on the DLQ of `s`. */
  ghost predicate Begins(s: State, r: Run) {
    SameWorld(s, r) && LoopInv(r) && r.startParts == r.parts && r.start == r.committed && r.handled == []
  }

  /** A sweep is a run of the system. It begins with the snapshot of the end
      offsets; then loop and system go on together in any order, the loop pausing
      partitions and handling records, the others appending and writing. Wherever
      it stands, the system is in a reachable state, the loop's variables mirror it,
      and the ledger holds. */
  lemma {:induction false} SweepIsARun(cfg: Config, start: State, es: seq<Event>, s: State, r: Run,
                                       hs: seq<Happening>, w: World)
    returns (es': seq<Event>)
    requires Reaches(cfg, start, es, s) && s.sweep.Off? && Begins(s, r)
    requires Unfold(cfg, World(s.(sweep := On(r.ends, Polling)), r), hs) == Some(w)
    ensures Reaches(cfg, start, es', w.s) && es + [Move(SweepStart(r.ends))] <= es'
    ensures Mirrors(w.s, w.r) && LoopInv(w.r)
    decreases |hs|
  {
    if hs == [] {
      ExecSnoc(cfg, start, es, Move(SweepStart(r.ends)));
      es' := es + [Move(SweepStart(r.ends))];
    } else {
      var n := |hs| - 1;
      var before := Unfold(cfg, World(s.(sweep := On(r.ends, Polling)), r), hs[..n]).value;
      var sofar := SweepIsARun(cfg, start, es, s, r, hs[..n], before);
      var more := NextMirrors(cfg, before, hs[n], w);
      ExecConcat(cfg, start, sofar, more);
      es' := sofar + more;
    }
  }

  /** And so is its end: whatever its last step, the system is in a reachable state,
      with nothing committed when the failure is not the record's. */
  lemma SweepEndsInARun(cfg: Config, start: State, es: seq<Event>, s: State, r: Run,
                        hs: seq<Happening>, w: World, x: LoopStep)
    returns (es': seq<Event>, s': State)
    requires Reaches(cfg, start, es, s) && s.sweep.Off? && Begins(s, r)
    requires Unfold(cfg, World(s.(sweep := On(r.ends, Polling)), r), hs) == Some(w)
    requires !x.Other? && Enabled(w.r, x) && Suits(w.s, x)
    ensures Reaches(cfg, start, es', s') && SameWorld(s', After(w.r, x)) && Ledger(After(w.r, x))
    ensures s'.sweep == if x.TakeAt? && Ends(w.r, x) then Off else On(w.r.ends, Polling)
    ensures Ends(w.r, x) ==> s'.dlq.committed == w.s.dlq.committed
  {
    es' := SweepIsARun(cfg, start, es, s, r, hs, w);
    s' := LoopStepIsARun(cfg, w.s, w.r, x);
    ExecConcat(cfg, start, es', EventsOf(w.r, x));
    es' := es' + EventsOf(w.r, x);
  }

  /** The loop's side of a sweep: its own steps, and what it was shown. */
  function StepsOf(w: World, h: Happening): seq<LoopStep> {
    match h
    case Loop(x) => [x]
    case System(e) => if Seen(w.s, e).Some? then [Other(Seen(w.s, e).value)] else []
  }

  lemma NextIsReplayed(cfg: Config, w: World, h: Happening, w': World)
    requires Next(cfg, w, h) == Some(w')
    ensures Replay(w.r, StepsOf(w, h)) == Some(w'.r)
  {
    match h
    case Loop(x) => ReplayOne(w.r, x);
    case System(e) =>
      if Seen(w.s, e).Some? {
        ReplayOne(w.r, Other(Seen(w.s, e).value));
      }
  }

  /** That side is a replay of loop steps, which is what `SweepRun.Sweep` says its
      own execution is. */
  lemma {:induction false} UnfoldIsReplayed(cfg: Config, w: World, hs: seq<Happening>, w': World)
    returns (xs: seq<LoopStep>)
    requires Unfold(cfg, w, hs) == Some(w')
    ensures Replay(w.r, xs) == Some(w'.r)
    decreases |hs|
  {
    if hs == [] {
      xs := [];
    } else {
      var n := |hs| - 1;
      var m := Unfold(cfg, w, hs[..n]).value;
      xs := UnfoldIsReplayed(cfg, w, hs[..n], m);
      NextIsReplayed(cfg, m, hs[n], w');
      ReplayConcat(w.r, xs, StepsOf(m, hs[n]));
      xs := xs + StepsOf(m, hs[n]);
    }
  }
}
