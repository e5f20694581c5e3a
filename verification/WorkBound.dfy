/** How much work a run can cause: a potential that pays for every classify pass,
    however often the processes crash. */
module WorkBound {
  import opened Model
  import opened Failures
  import opened EditsTable
  import opened Pipeline
  import opened Invariant
  import opened Preservation

  /** The passes a record can still cause: a raw record the worker's pass and all
      retry passes, a retry envelope the passes its attempts leave. */
  function Weight(cfg: Config, t: TopicName, value: Payload): (w: nat)
    ensures 1 <= w <= 1 + cfg.maxRetryPasses
  {
    if t == Raw then 1 + cfg.maxRetryPasses
    else
      match DecodeRetry(value)
      case Ok(job) => if 1 <= job.attempts <= cfg.maxRetryPasses then 1 + cfg.maxRetryPasses - job.attempts else 1
      case Err(_) => 1
  }

  function SumFrom(cfg: Config, t: TopicName, part: seq<Record>, from: nat): nat
    decreases |part| - from
  {
    if from >= |part| then 0 else Weight(cfg, t, part[from].payload) + SumFrom(cfg, t, part, from + 1)
  }

  /** The weights of the uncommitted records of partitions `p` and up. */
  function TotalFrom(cfg: Config, t: TopicName, x: Topic, p: nat): nat
    decreases |x.parts| - p
  {
    if p >= |x.parts| || p >= |x.committed| then 0
    else SumFrom(cfg, t, x.parts[p], x.committed[p]) + TotalFrom(cfg, t, x, p + 1)
  }

  /** The potential: over all uncommitted raw and retry records. */
  function Phi(cfg: Config, s: State): nat {
    TotalFrom(cfg, Raw, s.raw, 0) + TotalFrom(cfg, Retry, s.retry, 0)
  }

  lemma {:induction false} SumAppend(cfg: Config, t: TopicName, part: seq<Record>, from: nat, r: Record)
    requires from <= |part|
    ensures SumFrom(cfg, t, part + [r], from) == SumFrom(cfg, t, part, from) + Weight(cfg, t, r.payload)
    decreases |part| - from
  {
    if from < |part| {
      assert (part + [r])[from] == part[from];
      SumAppend(cfg, t, part, from + 1, r);
    }
  }

  lemma {:induction false} TotalAppend(cfg: Config, t: TopicName, x: Topic, q: nat, r: Record, p: nat)
    requires TopicOk(x) && q < |x.parts| && p <= |x.parts|
    ensures TotalFrom(cfg, t, Appended(x, q, r), p) ==
            TotalFrom(cfg, t, x, p) + if p <= q then Weight(cfg, t, r.payload) else 0
    decreases |x.parts| - p
  {
    if p < |x.parts| {
      TotalAppend(cfg, t, x, q, r, p + 1);
      if p == q {
        SumAppend(cfg, t, x.parts[q], x.committed[q], r);
      }
    }
  }

  lemma {:induction false} TotalAdvance(cfg: Config, t: TopicName, x: Topic, q: nat, p: nat)
    requires TopicOk(x) && Pending(x, q) && p <= |x.parts|
    ensures TotalFrom(cfg, t, x, p) == TotalFrom(cfg, t, Advanced(x, q), p) +
            if p <= q then Weight(cfg, t, x.parts[q][x.committed[q]].payload) else 0
    decreases |x.parts| - p
  {
    if p < |x.parts| {
      TotalAdvance(cfg, t, x, q, p + 1);
    }
  }

  // -------------------------------------------------------------- open passes

  /** Whether each of the two processes has a pass open. */
  datatype Open = Open(worker: bool, retrier: bool)

  const CLOSED: Open := Open(false, false)

  function OpenOf(o: Open, role: Role): bool {
    if role == Worker then o.worker else o.retrier
  }

  function WithOpen(o: Open, role: Role, open: bool): Open {
    if role == Worker then Open(open, o.retrier) else Open(o.worker, open)
  }

  /** A pass opens when it starts; its message's commit or a crash closes it. */
  function OpenAfter(o: Open, e: Event): Open {
    match e
    case Crash(role) => WithOpen(o, role, false)
    case Do(role, a) =>
      if a.StartPass? then WithOpen(o, role, true) else if a.Commit? then WithOpen(o, role, false) else o
    case _ => o
  }

  function OpenFrom(o: Open, es: seq<Event>): Open {
    if es == [] then o else OpenAfter(OpenFrom(o, es[..|es| - 1]), es[|es| - 1])
  }

  /** The passes a run that began with none open has left open. */
  function OpenPasses(es: seq<Event>): Open {
    OpenFrom(CLOSED, es)
  }

  predicate NoOpenPass(es: seq<Event>) {
    OpenPasses(es) == CLOSED
  }

  ghost predicate StillOpen(es: seq<Event>, role: Role, k: nat) {
    k < |es| && es[k] == Do(role, StartPass) &&
    forall j | k < j < |es| :: es[j] != Do(role, Commit) && es[j] != Crash(role)
  }

  /** Read off the events: a pass is open when one was started and neither a commit
      nor a crash of its process has come since. */
  lemma {:induction false} OpenMeansStartedAndNotClosed(es: seq<Event>, role: Role)
    ensures OpenOf(OpenPasses(es), role) <==> exists k: nat :: StillOpen(es, role, k)
    decreases |es|
  {
    if es != [] {
      var n := |es| - 1;
      var before, e := es[..n], es[n];
      OpenMeansStartedAndNotClosed(before, role);
      assert role == Worker || role == Retrier;
      if e == Do(role, StartPass) {
        assert StillOpen(es, role, n);
      } else if e == Do(role, Commit) || e == Crash(role) {
        assert forall k: nat :: !StillOpen(es, role, k);
      } else {
        assert forall k: nat :: StillOpen(es, role, k) <==> StillOpen(before, role, k);
      }
    }
  }

  /** What a counter says about its pass; a park and a doom come with or without. */
  predicate Fits(pc: Pc, open: bool) {
    match pc
    case Publishing(_, _, _, outcome) => open || outcome == Parked
    case Committing(_, outcome) => outcome == Parked || (open <==> outcome != Skipped)
    case Parking(_, _) => true
    case Doomed(_) => true
    case _ => open <==> !(pc.Idle? || pc.Ready? || pc.Admitted? || pc.Settling?)
  }

  predicate AllFit(s: State, o: Open) {
    Fits(s.worker.pc, o.worker) && Fits(s.retrier.pc, o.retrier)
  }

  // ------------------------------------------------------------ the net potential

  /** The weight of the message in flight from `p`. */
  function MessageWeight(cfg: Config, s: State, role: Role, p: nat): (w: nat)
    requires Pending(TopicOf(s, SourceTopic(role)), p)
    ensures 1 <= w <= 1 + cfg.maxRetryPasses
  {
    Weight(cfg, SourceTopic(role), At(s, Message(role, s, p)).payload)
  }

  /** What the message in flight has used up so far: nothing without an open pass,
      one unit from its start on, all of its weight once only the commit is left. */
  function Debit(cfg: Config, s: State, role: Role, open: bool): (d: nat)
    ensures d <= 1 + cfg.maxRetryPasses && (d == 0 <==> !open)
  {
    var pc := ProcOf(s, role).pc;
    if !open then 0
    else if pc.Committing? && Pending(TopicOf(s, SourceTopic(role)), pc.part) then
      MessageWeight(cfg, s, role, pc.part)
    else 1
  }

  /** What the open passes are charged with. */
  function Charged(cfg: Config, s: State, o: Open): (c: nat)
    ensures c == 0 <==> o == CLOSED
  {
    Debit(cfg, s, Worker, o.worker) + Debit(cfg, s, Retrier, o.retrier)
  }

  function Net(cfg: Config, s: State, o: Open): int {
    Phi(cfg, s) - Charged(cfg, s, o)
  }

  /** A debit never exceeds what its topic still holds. */
  lemma NetIsNatural(cfg: Config, s: State, o: Open)
    requires Inv(cfg, s) && AllFit(s, o)
    ensures Net(cfg, s, o) >= 0
  {
    DebitIsCovered(cfg, s, Worker, o.worker);
    DebitIsCovered(cfg, s, Retrier, o.retrier);
  }

  lemma DebitIsCovered(cfg: Config, s: State, role: Role, open: bool)
    requires TopicsOk(s) && ProcOk(cfg, s, role) && Fits(ProcOf(s, role).pc, open)
    ensures Debit(cfg, s, role, open) <= TotalFrom(cfg, SourceTopic(role), TopicOf(s, SourceTopic(role)), 0)
  {
    var pc := ProcOf(s, role).pc;
    if open {
      assert InFlight(s, role, pc.part);
      TotalAdvance(cfg, SourceTopic(role), TopicOf(s, SourceTopic(role)), pc.part, 0);
    }
  }

  // ------------------------------------------------------------------- steps

  predicate Starts(e: Event) {
    e.Do? && e.action.StartPass?
  }

  function Allowance(cfg: Config, e: Event): nat {
    if e.Arrive? || e.Crash? then 1 + cfg.maxRetryPasses else 0
  }

  /** The allowance a handler's step gives up: all of the message's when it is
      committed without a pass, and all but the pass when the pass ends it. */
  function ActWaste(cfg: Config, s: State, role: Role, open: bool, a: Action): nat {
    var pc := ProcOf(s, role).pc;
    if pc.Committing? && a.Commit? && !open && Pending(TopicOf(s, SourceTopic(role)), pc.part) then
      MessageWeight(cfg, s, role, pc.part)
    else if pc.Saving? && a.Save? && a.db.Done? && Pending(TopicOf(s, SourceTopic(role)), pc.part) then
      MessageWeight(cfg, s, role, pc.part) - 1
    else if pc.Publishing? && a.Publish? && open && pc.topic == Dlq &&
            Pending(TopicOf(s, SourceTopic(role)), pc.part) then
      MessageWeight(cfg, s, role, pc.part) - 1
    else 0
  }

  /** A crash gives up what it was allowed beyond the pass it interrupts. */
  function Waste(cfg: Config, s: State, o: Open, e: Event): nat {
    match e
    case Crash(role) => 1 + cfg.maxRetryPasses - Debit(cfg, s, role, OpenOf(o, role))
    case Do(role, a) => ActWaste(cfg, s, role, OpenOf(o, role), a)
    case _ => 0
  }

  /** How far a counter is from being at rest again. */
  function Rank(pc: Pc, open: bool): nat {
    match pc
    case Doomed(_) => 0
    case Committing(_, _) => if open then 9 else 2
    case Publishing(_, _, _, _) => if open then 10 else 3
    case Parking(_, _) => if open then 12 else 4
    case Admitted(_, _) => 5
    case Ready(_, _) => 6
    case Idle => 7
    case Settling(_, _) => 8
    case Routed(_, _, _, _, _) => 11
    case Recorded(_, _, _, _) => 12
    case Saving(_, _, _, again) => if again then 13 else 14
    case Recording(_, _, _, _, again) => if again then 13 else 14
    case Classifying(_, _) => 15
  }

  function RankOf(s: State, o: Open, role: Role): nat {
    Rank(ProcOf(s, role).pc, OpenOf(o, role))
  }

  /** The account of one step of a handler: the net potential falls by exactly the
      pass started and the allowance given up, and a step that costs nothing brings
      the handler closer to rest. */
  ghost predicate Pays(cfg: Config, s: State, o: Open, role: Role, a: Action, s': State) {
    var o' := OpenAfter(o, Do(role, a));
    && Net(cfg, s', o') + (if a.StartPass? then 1 else 0) + ActWaste(cfg, s, role, OpenOf(o, role), a) == Net(cfg, s, o)
    && (RankOf(s', o', role) < RankOf(s, o, role) || Net(cfg, s', o') < Net(cfg, s, o))
    && Fits(ProcOf(s', role).pc, OpenOf(o', role))
  }

  /** What each process's own step needs of the state it starts in. */
  ghost predicate Accountable(cfg: Config, s: State, o: Open, role: Role) {
    TopicsOk(s) && LogsOk(cfg, s) && ProcOk(cfg, s, role) && ProcOk(cfg, s, Other(role)) && AllFit(s, o)
  }

  /** A step that leaves both topics alone changes only the debit of its actor. */
  lemma SameTopicsSamePhi(cfg: Config, s: State, s': State, o: Open, o': Open, role: Role)
    requires s'.raw == s.raw && s'.retry == s.retry && ProcOf(s', Other(role)) == ProcOf(s, Other(role))
    requires OpenOf(o', Other(role)) == OpenOf(o, Other(role))
    ensures Net(cfg, s', o') - Net(cfg, s, o) ==
            Debit(cfg, s, role, OpenOf(o, role)) - Debit(cfg, s', role, OpenOf(o', role))
  {
    assert role == Worker || role == Retrier;
    assert forall p: nat | Pending(TopicOf(s, SourceTopic(Other(role))), p) ::
        At(s', Message(Other(role), s', p)) == At(s, Message(Other(role), s, p));
  }

  predicate QuietAction(a: Action) {
    !a.Save? && !a.RecordFailed? && !a.Publish? && !a.Commit?
  }

  lemma QuietPays(cfg: Config, s: State, o: Open, role: Role, a: Action, s': State)
    requires Accountable(cfg, s, o, role) && Act(cfg, s, role, a) == Some(s') && QuietAction(a)
    ensures Pays(cfg, s, o, role, a, s')
  {
    var o' := OpenAfter(o, Do(role, a));
    assert Fits(ProcOf(s, role).pc, OpenOf(o, role));
    QuietLeavesTopics(cfg, s, role, a, s');
    QuietCounter(cfg, s, role, a, s', OpenOf(o, role));
    SameTopicsSamePhi(cfg, s, s', o, o', role);
  }

  lemma QuietLeavesTopics(cfg: Config, s: State, role: Role, a: Action, s': State)
    requires Act(cfg, s, role, a) == Some(s') && QuietAction(a)
    ensures s'.raw == s.raw && s'.retry == s.retry && ProcOf(s', Other(role)) == ProcOf(s, Other(role))
  {
  }

  /** A counter's move when neither a write, a publish nor a commit makes it: its
      pass stays as it was or is started. */
  predicate CounterPays(pc: Pc, pc': Pc, open: bool, starts: bool) {
    var open' := open || starts;
    !pc.Committing? && Fits(pc', open') && (starts ==> !open) && (pc'.Committing? ==> !open') &&
    (starts || Rank(pc', open') < Rank(pc, open))
  }

  lemma QuietCounter(cfg: Config, s: State, role: Role, a: Action, s': State, open: bool)
    requires Act(cfg, s, role, a) == Some(s') && QuietAction(a) && Fits(ProcOf(s, role).pc, open)
    ensures CounterPays(ProcOf(s, role).pc, ProcOf(s', role).pc, open, a.StartPass?)
  {
    match a
    case Admit(db) => AdmitCounter(s, role, db, s', open);
    case GetReply(reply) => ReplyCounter(s, role, reply, s', open);
    case Wrap => WrapCounter(s, role, s', open);
    case Settle => SettleCounter(cfg, s, role, s', open);
    case _ =>
  }

  lemma AdmitCounter(s: State, role: Role, db: DbResult, s': State, open: bool)
    requires OnAdmit(s, role, db) == Some(s') && Fits(ProcOf(s, role).pc, open)
    ensures CounterPays(ProcOf(s, role).pc, ProcOf(s', role).pc, open, false)
  {
  }

  lemma ReplyCounter(s: State, role: Role, reply: Reply, s': State, open: bool)
    requires OnReply(s, role, reply) == Some(s') && Fits(ProcOf(s, role).pc, open)
    ensures CounterPays(ProcOf(s, role).pc, ProcOf(s', role).pc, open, false)
  {
  }

  lemma WrapCounter(s: State, role: Role, s': State, open: bool)
    requires OnWrap(s, role) == Some(s') && Fits(ProcOf(s, role).pc, open)
    ensures CounterPays(ProcOf(s, role).pc, ProcOf(s', role).pc, open, false)
  {
  }

  lemma SettleCounter(cfg: Config, s: State, role: Role, s': State, open: bool)
    requires OnSettle(cfg, s, role) == Some(s') && Fits(ProcOf(s, role).pc, open)
    ensures CounterPays(ProcOf(s, role).pc, ProcOf(s', role).pc, open, false)
  {
  }

  lemma SavePays(cfg: Config, s: State, o: Open, role: Role, db: DbResult, s': State)
    requires Accountable(cfg, s, o, role) && OnSave(s, role, db) == Some(s')
    ensures Pays(cfg, s, o, role, Save(db), s')
  {
    SavedPc(cfg, s, role, db, s');
    assert Fits(ProcOf(s, role).pc, OpenOf(o, role));
    WrittenPays(cfg, s, o, role, Save(db), s');
  }

  lemma RecordPays(cfg: Config, s: State, o: Open, role: Role, db: DbResult, s': State)
    requires Accountable(cfg, s, o, role) && OnRecord(s, role, db) == Some(s')
    ensures Pays(cfg, s, o, role, RecordFailed(db), s')
  {
    RecordedPc(cfg, s, role, db, s');
    assert Fits(ProcOf(s, role).pc, OpenOf(o, role));
    WrittenPays(cfg, s, o, role, RecordFailed(db), s');
  }

  /** Where a write leaves a counter whose pass is open. */
  predicate WrittenCounter(pc: Pc, a: Action, pc': Pc) {
    if a.Save? && a.db.Done? then pc.Saving? && pc' == Committing(pc.part, Succeeded)
    else (pc.Saving? || pc.Recording?) && !pc'.Committing? && Fits(pc', true) && Rank(pc', true) < Rank(pc, true)
  }

  /** A write changes no debit, unless it saves the verdict. */
  lemma WrittenPays(cfg: Config, s: State, o: Open, role: Role, a: Action, s': State)
    requires (a.Save? || a.RecordFailed?) && OpenOf(o, role)
    requires WrittenCounter(ProcOf(s, role).pc, a, ProcOf(s', role).pc)
    requires InFlight(s, role, ProcOf(s, role).pc.part)
    requires s'.raw == s.raw && s'.retry == s.retry && ProcOf(s', Other(role)) == ProcOf(s, Other(role))
    ensures Pays(cfg, s, o, role, a, s')
  {
    SameTopicsSamePhi(cfg, s, s', o, o, role);
    SameMessage(s, s', role, ProcOf(s, role).pc.part);
  }

  /** A republished envelope weighs exactly one pass less than the message it
      replaces. */
  lemma RepublishedWeighsOneLess(cfg: Config, s: State, role: Role, env: Envelope, m: Coord)
    requires LogsOk(cfg, s) && EnvelopeOk(cfg, s, Retry, env) && env.kafka == m
    ensures Exists(s, m) && Weight(cfg, Retry, EnvelopeJson(env)) + 1 == Weight(cfg, m.topic, At(s, m).payload)
  {
    assert RecordOk(cfg, s, m);
  }

  lemma PublishPays(cfg: Config, s: State, o: Open, role: Role, q: nat, s': State)
    requires Accountable(cfg, s, o, role) && OnPublish(s, role, q) == Some(s')
    ensures Pays(cfg, s, o, role, Publish(q), s')
  {
    PublishedPc(cfg, s, role, q, s');
    PublishPhi(cfg, s, role, q, s');
    PublishDebit(cfg, s, role, q, s', OpenOf(o, role), OpenOf(o, Other(role)));
    assert role == Worker || role == Retrier;
  }

  lemma PublishPhi(cfg: Config, s: State, role: Role, q: nat, s': State)
    requires TopicsOk(s) && ProcOf(s, role).pc.Publishing? && ProcOf(s, role).pc.topic != Raw
    requires OneMore(s, s', ProcOf(s, role).pc.topic, q, EnvelopeJson(ProcOf(s, role).pc.env))
    ensures var pc := ProcOf(s, role).pc;
            Phi(cfg, s') == Phi(cfg, s) + if pc.topic == Retry then Weight(cfg, Retry, EnvelopeJson(pc.env)) else 0
  {
    var pc := ProcOf(s, role).pc;
    if pc.topic == Retry {
      TotalAppend(cfg, Retry, s.retry, q, Record(EnvelopeJson(pc.env), s.stamps), 0);
    }
  }

  /** With an open pass the message has now used up all of its weight: its pass, and
      what the envelope carries on or the DLQ gives up. Only a park has none. */
  lemma PublishDebit(cfg: Config, s: State, role: Role, q: nat, s': State, open: bool, other: bool)
    requires LogsOk(cfg, s) && ProcOk(cfg, s, role) && ProcOk(cfg, s, Other(role))
    requires ProcOf(s, role).pc.Publishing? && ProcOf(s, role).pc.topic != Raw && Fits(ProcOf(s, role).pc, open)
    requires var pc := ProcOf(s, role).pc;
             OneMore(s, s', pc.topic, q, EnvelopeJson(pc.env)) &&
             ProcOf(s', role).pc == Committing(pc.part, pc.outcome) && ProcOf(s', Other(role)) == ProcOf(s, Other(role))
    ensures var pc := ProcOf(s, role).pc;
            Debit(cfg, s', role, open) == Debit(cfg, s, role, open) + ActWaste(cfg, s, role, open, Publish(q)) +
              if pc.topic == Retry then Weight(cfg, Retry, EnvelopeJson(pc.env)) else 0
    ensures Debit(cfg, s', Other(role), other) == Debit(cfg, s, Other(role), other)
  {
    var pc := ProcOf(s, role).pc;
    AppendExtends(s, s', pc.topic, q, EnvelopeJson(pc.env));
    DebitStays(cfg, s, s', Other(role), other);
    MessageStays(s, s', role, pc.part);
    if pc.topic == Retry {
      RepublishedWeighsOneLess(cfg, s, role, pc.env, Message(role, s, pc.part));
    }
  }

  /** A process that does not act keeps its debit. */
  lemma DebitStays(cfg: Config, s: State, s': State, role: Role, open: bool)
    requires Extends(s, s') && ProcOf(s', role) == ProcOf(s, role) && ProcOk(cfg, s, role)
    requires TopicOf(s', SourceTopic(role)).committed == TopicOf(s, SourceTopic(role)).committed
    ensures Debit(cfg, s', role, open) == Debit(cfg, s, role, open)
  {
    var pc := ProcOf(s, role).pc;
    if pc.Committing? {
      MessageStays(s, s', role, pc.part);
    }
  }

  lemma CommitPays(cfg: Config, s: State, o: Open, role: Role, s': State)
    requires Accountable(cfg, s, o, role) && OnCommit(s, role) == Some(s') && Extends(s, s')
    ensures Pays(cfg, s, o, role, Commit, s')
  {
    CommittedData(s, role, s');
    CommitMoves(s, role, s');
    CommittedPays(cfg, s, o, role, s');
  }

  lemma CommitMoves(s: State, role: Role, s': State)
    requires OnCommit(s, role) == Some(s')
    ensures ProcOf(s, role).pc.Committing? && ProcOf(s', role).pc.Settling?
    ensures var src := TopicOf(s, SourceTopic(role));
            ProcOf(s, role).pc.part < |src.committed| &&
            TopicOf(s', SourceTopic(role)) == Advanced(src, ProcOf(s, role).pc.part) &&
            TopicOf(s', SourceTopic(Other(role))) == TopicOf(s, SourceTopic(Other(role)))
  {
  }

  lemma CommittedPays(cfg: Config, s: State, o: Open, role: Role, s': State)
    requires Accountable(cfg, s, o, role) && Extends(s, s') && ProcOf(s', Other(role)) == ProcOf(s, Other(role))
    requires ProcOf(s, role).pc.Committing? && ProcOf(s', role).pc.Settling?
    requires InFlight(s, role, ProcOf(s, role).pc.part)
    requires TopicOf(s', SourceTopic(role)) == Advanced(TopicOf(s, SourceTopic(role)), ProcOf(s, role).pc.part)
    requires TopicOf(s', SourceTopic(Other(role))) == TopicOf(s, SourceTopic(Other(role)))
    ensures Pays(cfg, s, o, role, Commit, s')
  {
    DebitStays(cfg, s, s', Other(role), OpenOf(o, Other(role)));
    CommitPhi(cfg, s, role, ProcOf(s, role).pc.part, s');
    assert role == Worker || role == Retrier;
  }

  lemma CommitPhi(cfg: Config, s: State, role: Role, p: nat, s': State)
    requires TopicsOk(s) && InFlight(s, role, p)
    requires TopicOf(s', SourceTopic(role)) == Advanced(TopicOf(s, SourceTopic(role)), p)
    requires TopicOf(s', SourceTopic(Other(role))) == TopicOf(s, SourceTopic(Other(role)))
    ensures Phi(cfg, s) == Phi(cfg, s') + MessageWeight(cfg, s, role, p)
  {
    TotalAdvance(cfg, SourceTopic(role), TopicOf(s, SourceTopic(role)), p, 0);
  }

  lemma WritePays(cfg: Config, s: State, o: Open, role: Role, a: Action, s': State)
    requires Accountable(cfg, s, o, role) && Act(cfg, s, role, a) == Some(s') && (a.Save? || a.RecordFailed?)
    ensures Pays(cfg, s, o, role, a, s')
  {
    if a.Save? {
      SavePays(cfg, s, o, role, a.db, s');
    } else {
      RecordPays(cfg, s, o, role, a.db, s');
    }
  }

  lemma LogPays(cfg: Config, s: State, o: Open, role: Role, a: Action, s': State)
    requires Accountable(cfg, s, o, role) && Act(cfg, s, role, a) == Some(s') && Extends(s, s')
    requires a.Publish? || a.Commit?
    ensures Pays(cfg, s, o, role, a, s')
  {
    if a.Publish? {
      PublishPays(cfg, s, o, role, a.part, s');
    } else {
      CommitPays(cfg, s, o, role, s');
    }
  }

  /** Every step of a process balances its account. */
  lemma {:induction false} ActPays(cfg: Config, s: State, o: Open, role: Role, a: Action, s': State)
    requires Accountable(cfg, s, o, role) && Act(cfg, s, role, a) == Some(s') && Extends(s, s')
    ensures Pays(cfg, s, o, role, a, s')
  {
    if QuietAction(a) {
      QuietPays(cfg, s, o, role, a, s');
    } else if a.Save? || a.RecordFailed? {
      WritePays(cfg, s, o, role, a, s');
    } else {
      LogPays(cfg, s, o, role, a, s');
    }
  }

  lemma ActLeavesOther(cfg: Config, s: State, role: Role, a: Action, s': State)
    requires Act(cfg, s, role, a) == Some(s')
    ensures ProcOf(s', Other(role)) == ProcOf(s, Other(role))
  {
  }

  lemma MoveIsFree(cfg: Config, s: State, m: SweepMove, s': State)
    requires Sweeping(s, m) == Some(s')
    ensures s'.raw == s.raw && s'.retry == s.retry && s'.worker == s.worker && s'.retrier == s.retrier
  {
  }

  lemma SameProcsSameNet(cfg: Config, s: State, s': State, o: Open)
    requires s'.raw == s.raw && s'.retry == s.retry && s'.worker == s.worker && s'.retrier == s.retrier
    ensures Net(cfg, s', o) == Net(cfg, s, o)
  {
    SameTopicsSamePhi(cfg, s, s', o, o, Worker);
    assert forall p: nat | Pending(s.raw, p) :: At(s', Message(Worker, s', p)) == At(s, Message(Worker, s, p));
  }

  lemma ArrivePays(cfg: Config, s: State, p: nat, payload: Payload, s': State, o: Open)
    requires Inv(cfg, s) && p < |s.raw.parts| && s' == Append(s, Raw, p, payload)
    ensures Net(cfg, s', o) == Net(cfg, s, o) + 1 + cfg.maxRetryPasses
  {
    assert OneMore(s, s', Raw, p, payload);
    AppendExtends(s, s', Raw, p, payload);
    TotalAppend(cfg, Raw, s.raw, p, Record(payload, s.stamps), 0);
    DebitStays(cfg, s, s', Worker, o.worker);
    DebitStays(cfg, s, s', Retrier, o.retrier);
  }

  /** One step of the whole system balances: what it is paid for, it spends on a
      pass, keeps in the net potential or gives up. */
  ghost predicate Balances(cfg: Config, s: State, o: Open, e: Event, s': State) {
    Net(cfg, s', OpenAfter(o, e)) + (if Starts(e) then 1 else 0) + Waste(cfg, s, o, e) ==
    Net(cfg, s, o) + Allowance(cfg, e)
  }

  lemma CrashBalances(cfg: Config, s: State, o: Open, role: Role, s': State)
    requires AllFit(s, o) && s' == WithProc(s, role, RESTARTED)
    ensures Balances(cfg, s, o, Crash(role), s') && AllFit(s', OpenAfter(o, Crash(role)))
  {
    SameTopicsSamePhi(cfg, s, s', o, OpenAfter(o, Crash(role)), role);
    assert role == Worker || role == Retrier;
  }

  lemma ActBalances(cfg: Config, s: State, o: Open, role: Role, a: Action, s': State)
    requires Accountable(cfg, s, o, role) && Act(cfg, s, role, a) == Some(s') && Extends(s, s')
    ensures Balances(cfg, s, o, Do(role, a), s') && AllFit(s', OpenAfter(o, Do(role, a)))
  {
    ActPays(cfg, s, o, role, a, s');
    ActLeavesOther(cfg, s, role, a, s');
    assert role == Worker || role == Retrier;
  }

  lemma StepBalances(cfg: Config, s: State, o: Open, e: Event, s': State)
    requires Inv(cfg, s) && AllFit(s, o) && Step(cfg, s, e) == Some(s')
    ensures Balances(cfg, s, o, e, s') && AllFit(s', OpenAfter(o, e))
  {
    match e
    case Do(role, a) =>
      StepKeepsInv(cfg, s, e, s');
      assert role == Worker || role == Retrier;
      ActBalances(cfg, s, o, role, a, s');
    case Move(m) =>
      MoveIsFree(cfg, s, m, s');
      SameProcsSameNet(cfg, s, s', o);
    case Tick(_) => SameProcsSameNet(cfg, s, s', o);
    case Crash(role) => CrashBalances(cfg, s, o, role, s');
    case Arrive(p, payload) => ArrivePays(cfg, s, p, payload, s', o);
  }

  // -------------------------------------------------------------------- runs

  function PassesStarted(es: seq<Event>): nat {
    if es == [] then 0
    else PassesStarted(es[..|es| - 1]) + if Starts(es[|es| - 1]) then 1 else 0
  }

  function Crashes(es: seq<Event>): nat {
    if es == [] then 0
    else Crashes(es[..|es| - 1]) + if es[|es| - 1].Crash? then 1 else 0
  }

  function Arrivals(es: seq<Event>): nat {
    if es == [] then 0
    else Arrivals(es[..|es| - 1]) + if es[|es| - 1].Arrive? then 1 else 0
  }

  /** What the arrivals and crashes of a run pay in. */
  function PaidIn(cfg: Config, es: seq<Event>): nat {
    if es == [] then 0 else PaidIn(cfg, es[..|es| - 1]) + Allowance(cfg, es[|es| - 1])
  }

  lemma {:induction false} PaidInCounts(cfg: Config, es: seq<Event>)
    ensures PaidIn(cfg, es) == Allowed(cfg, es)
    decreases |es|
  {
    if es != [] {
      var before, e := es[..|es| - 1], es[|es| - 1];
      PaidInCounts(cfg, before);
      var k, n := 1 + cfg.maxRetryPasses, Arrivals(before) + Crashes(before);
      assert k * (n + 1) == k * n + k;
    }
  }

  /** The allowance a run has given up, step by step. */
  function Slack(cfg: Config, start: State, es: seq<Event>): nat {
    if es == [] then 0
    else
      var before := es[..|es| - 1];
      Slack(cfg, start, before) +
      match Exec(cfg, start, before)
      case Some(m) => Waste(cfg, m, OpenPasses(before), es[|es| - 1])
      case None => 0
  }

  lemma {:induction false} RunBalances(cfg: Config, start: State, es: seq<Event>, s: State)
    requires Inv(cfg, start) && AllFit(start, CLOSED) && Exec(cfg, start, es) == Some(s)
    ensures AllFit(s, OpenPasses(es))
    ensures PassesStarted(es) + Net(cfg, s, OpenPasses(es)) + Slack(cfg, start, es) ==
            Net(cfg, start, CLOSED) + PaidIn(cfg, es)
    decreases |es|
  {
    if es != [] {
      var n := |es| - 1;
      var m := Exec(cfg, start, es[..n]).value;
      RunKeepsInv(cfg, start, es[..n], m);
      RunBalances(cfg, start, es[..n], m);
      StepBalances(cfg, m, OpenPasses(es[..n]), es[n], s);
    }
  }

  lemma {:induction false} EmptyTopicWeighsNothing(cfg: Config, t: TopicName, n: nat, p: nat)
    ensures TotalFrom(cfg, t, EmptyTopic(n), p) == 0
    decreases n - p
  {
    if p < n {
      EmptyTopicWeighsNothing(cfg, t, n, p + 1);
    }
  }

  /** What a run has been allowed: 1 + M passes per message and per crash. */
  function Allowed(cfg: Config, es: seq<Event>): nat {
    (1 + cfg.maxRetryPasses) * (Arrivals(es) + Crashes(es))
  }

  /** The exact account of a run: passes, uncommitted work and allowance given up
      make the allowance paid in plus what open passes are charged with. */
  lemma {:induction false} PassesBalance(cfg: Config, start: State, es: seq<Event>, s: State)
    requires Reaches(cfg, start, es, s)
    ensures PassesStarted(es) + Phi(cfg, s) + Slack(cfg, start, es) ==
            Allowed(cfg, es) + Charged(cfg, s, OpenPasses(es))
    ensures Charged(cfg, s, OpenPasses(es)) <= Phi(cfg, s)
  {
    var a: nat, b: nat, c: nat, now: int :| start == Initial(a, b, c, now);
    InitialInv(cfg, a, b, c, now);
    EmptyTopicWeighsNothing(cfg, Raw, a, 0);
    EmptyTopicWeighsNothing(cfg, Retry, b, 0);
    RunBalances(cfg, start, es, s);
    PaidInCounts(cfg, es);
    RunKeepsInv(cfg, start, es, s);
    NetIsNatural(cfg, s, OpenPasses(es));
  }

  /** So passes and potential together stay within the allowance exactly when the
      open passes are charged with no more than the run has given up. */
  lemma {:induction false} BoundHoldsExactlyWhenSlackCovers(cfg: Config, start: State, es: seq<Event>, s: State)
    requires Reaches(cfg, start, es, s)
    ensures PassesStarted(es) + Phi(cfg, s) <= Allowed(cfg, es) <==>
            Charged(cfg, s, OpenPasses(es)) <= Slack(cfg, start, es)
  {
    PassesBalance(cfg, start, es, s);
  }

  /** The amortised bound. Over any run, worker and retrier together start at most
      1 + M classify passes per message and per crash; when no pass is open what is
      left of that allowance covers everything still uncommitted, and at any time it
      covers that less what the open passes are charged with. */
  lemma {:induction false} PassesAreBounded(cfg: Config, start: State, es: seq<Event>, s: State)
    requires Reaches(cfg, start, es, s)
    ensures PassesStarted(es) <= Allowed(cfg, es)
    ensures PassesStarted(es) + Phi(cfg, s) <= Allowed(cfg, es) + Charged(cfg, s, OpenPasses(es))
    ensures NoOpenPass(es) ==> PassesStarted(es) + Phi(cfg, s) <= Allowed(cfg, es)
  {
    PassesBalance(cfg, start, es, s);
  }

  /** Between a pass and its commit the potential alone would be too much: one
      arrival, its pass just started, already exceeds the allowance. */
  lemma MidPassExceedsAllowance(cfg: Config, e: Edit)
    ensures var es := [Arrive(0, EditJson(e)), Do(Worker, Poll(0)), Do(Worker, Admit(Done)), Do(Worker, StartPass)];
            var last := Exec(cfg, Initial(1, 1, 1, 0), es);
            last.Some? && !NoOpenPass(es) &&
            PassesStarted(es) + Phi(cfg, last.value) > Allowed(cfg, es)
  {
    var s0 := Initial(1, 1, 1, 0);
    var e1, e2 := Arrive(0, EditJson(e)), Do(Worker, Poll(0));
    var e3, e4 := Do(Worker, Admit(Done)), Do(Worker, StartPass);
    var s1 := Append(s0, Raw, 0, EditJson(e));
    var job := Job(e, 1, None, None);
    assert Exec(cfg, s0, []) == Some(s0);
    ExecSnoc(cfg, s0, [], e1);
    assert [] + [e1] == [e1] && [e1] + [e2] == [e1, e2] && [e1, e2] + [e3] == [e1, e2, e3];
    assert [e1, e2, e3] + [e4] == [e1, e2, e3, e4];
    ExecSnoc(cfg, s0, [e1], e2);
    ExecSnoc(cfg, s0, [e1, e2], e3);
    ExecSnoc(cfg, s0, [e1, e2, e3], e4);
    var s2 := WithPc(s1, Worker, Ready(0, job));
    var s3 := WithPc(s1, Worker, Admitted(0, job));
    var s4 := WithPc(s1, Worker, Classifying(0, job));
    assert Step(cfg, s1, e2) == Some(s2);
    assert Step(cfg, s2, e3) == Some(s3);
    assert Step(cfg, s3, e4) == Some(s4);
    Counts(e1, e2, e3, e4);
    EmptyTopicWeighsNothing(cfg, Raw, 1, 0);
    EmptyTopicWeighsNothing(cfg, Retry, 1, 0);
    TotalAppend(cfg, Raw, s0.raw, 0, Record(EditJson(e), 0), 0);
  }

  lemma Counts(e1: Event, e2: Event, e3: Event, e4: Event)
    requires e1.Arrive? && e2.Do? && e3.Do? && e4.Do? && !Starts(e2) && !Starts(e3) && Starts(e4)
    ensures var es := [e1, e2, e3, e4];
            PassesStarted(es) == 1 && Arrivals(es) == 1 && Crashes(es) == 0
  {
    var a, b, c, d := [e1], [e1, e2], [e1, e2, e3], [e1, e2, e3, e4];
    assert d[..3] == c && c[..2] == b && b[..1] == a && a[..0] == [];
    assert PassesStarted(a) == 0 && Arrivals(a) == 1 && Crashes(a) == 0;
    assert PassesStarted(b) == 0 && Arrivals(b) == 1 && Crashes(b) == 0;
    assert PassesStarted(c) == 0 && Arrivals(c) == 1 && Crashes(c) == 0;
  }

  // ---------------------------------------------------------------- draining

  /** Strictly falls with every step of worker and retrier. */
  function Remaining(cfg: Config, s: State, o: Open): int {
    16 * Net(cfg, s, o) + RankOf(s, o, Worker) + RankOf(s, o, Retrier)
  }

  predicate Undisturbed(es: seq<Event>) {
    forall i | 0 <= i < |es| :: !es[i].Arrive? && !es[i].Crash?
  }

  function Steps(es: seq<Event>): nat {
    if es == [] then 0 else Steps(es[..|es| - 1]) + if es[|es| - 1].Do? then 1 else 0
  }

  lemma {:induction false} StepsAreBounded(cfg: Config, s: State, o: Open, es: seq<Event>, s': State)
    requires Inv(cfg, s) && AllFit(s, o) && Exec(cfg, s, es) == Some(s') && Undisturbed(es)
    ensures AllFit(s', OpenFrom(o, es))
    ensures Steps(es) + Remaining(cfg, s', OpenFrom(o, es)) <= Remaining(cfg, s, o)
    decreases |es|
  {
    if es != [] {
      var n := |es| - 1;
      var m := Exec(cfg, s, es[..n]).value;
      RunKeepsInv(cfg, s, es[..n], m);
      StepsAreBounded(cfg, s, o, es[..n], m);
      StepBalances(cfg, m, OpenFrom(o, es[..n]), es[n], s');
      UndisturbedStep(cfg, m, OpenFrom(o, es[..n]), es[n], s');
    }
  }

  lemma ActLessens(cfg: Config, s: State, o: Open, role: Role, a: Action, s': State)
    requires Inv(cfg, s) && AllFit(s, o) && Act(cfg, s, role, a) == Some(s') && Extends(s, s')
    ensures 1 + Remaining(cfg, s', OpenAfter(o, Do(role, a))) <= Remaining(cfg, s, o)
  {
    assert role == Worker || role == Retrier;
    assert Accountable(cfg, s, o, role);
    ActPays(cfg, s, o, role, a, s');
    ActLeavesOther(cfg, s, role, a, s');
    FallsTogether(cfg, s, s', o, OpenAfter(o, Do(role, a)), role);
  }

  lemma FallsTogether(cfg: Config, s: State, s': State, o: Open, o': Open, role: Role)
    requires Net(cfg, s', o') <= Net(cfg, s, o) && ProcOf(s', Other(role)) == ProcOf(s, Other(role))
    requires OpenOf(o', Other(role)) == OpenOf(o, Other(role))
    requires RankOf(s', o', role) < RankOf(s, o, role) || Net(cfg, s', o') < Net(cfg, s, o)
    ensures 1 + Remaining(cfg, s', o') <= Remaining(cfg, s, o)
  {
    assert role == Worker || role == Retrier;
  }

  lemma UndisturbedStep(cfg: Config, s: State, o: Open, e: Event, s': State)
    requires Inv(cfg, s) && AllFit(s, o) && Step(cfg, s, e) == Some(s') && !e.Arrive? && !e.Crash?
    ensures (if e.Do? then 1 else 0) + Remaining(cfg, s', OpenAfter(o, e)) <= Remaining(cfg, s, o)
  {
    match e
    case Do(role, a) =>
      StepKeepsInv(cfg, s, e, s');
      ActLessens(cfg, s, o, role, a, s');
    case Move(m) =>
      MoveIsFree(cfg, s, m, s');
      SameProcsSameNet(cfg, s, s', o);
    case Tick(_) => SameProcsSameNet(cfg, s, s', o);
  }

  /** Draining terminates: from any reachable state, as long as nothing arrives and
      nothing crashes, worker and retrier take at most `Remaining` more steps,
      whatever the sweeper does meanwhile. */
  lemma DrainingTerminates(cfg: Config, start: State, es: seq<Event>, s: State, more: seq<Event>, s': State)
    requires Reaches(cfg, start, es, s) && Exec(cfg, s, more) == Some(s') && Undisturbed(more)
    ensures Steps(more) <= Remaining(cfg, s, OpenPasses(es))
  {
    var a: nat, b: nat, c: nat, now: int :| start == Initial(a, b, c, now);
    InitialInv(cfg, a, b, c, now);
    RunBalances(cfg, start, es, s);
    RunKeepsInv(cfg, start, es, s);
    var o := OpenPasses(es);
    StepsAreBounded(cfg, s, o, more, s');
    RunKeepsInv(cfg, s, more, s');
    NetIsNatural(cfg, s', OpenFrom(o, more));
  }
}
