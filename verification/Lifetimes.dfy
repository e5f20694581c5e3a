/** One process lifetime: the breaker's count is a function of the outcomes
    committed since the process started, and it kills exactly at its threshold. */
module Lifetimes {
  import opened Model
  import opened Failures
  import opened EditsTable
  import opened Pipeline
  import opened Invariant
  import opened Preservation

  /** Between a commit and its bookkeeping the count lags one outcome behind. */
  ghost predicate Counted(cfg: Config, pr: Proc) {
    && (pr.failures == 0 || pr.failures < cfg.breakerThreshold)
    && if pr.pc.Settling? then
         |pr.history| > 0 && pr.history[|pr.history| - 1] == pr.pc.outcome &&
         pr.failures == Streak(pr.history[..|pr.history| - 1])
       else pr.failures == Streak(pr.history)
  }

  lemma CommitCounted(cfg: Config, s: State, role: Role, s': State)
    requires Counted(cfg, ProcOf(s, role)) && OnCommit(s, role) == Some(s')
    ensures Counted(cfg, ProcOf(s', role)) && ProcOf(s', Other(role)) == ProcOf(s, Other(role))
  {
    var h := ProcOf(s, role).history;
    assert ProcOf(s', role).history[..|h|] == h;
  }

  lemma SettleCounted(cfg: Config, s: State, role: Role, s': State)
    requires Counted(cfg, ProcOf(s, role)) && OnSettle(cfg, s, role) == Some(s')
    ensures Counted(cfg, ProcOf(s', role)) && ProcOf(s', Other(role)) == ProcOf(s, Other(role))
  {
  }

  lemma OtherActsCount(cfg: Config, s: State, role: Role, a: Action, s': State)
    requires Act(cfg, s, role, a) == Some(s') && !a.Commit? && !a.Settle?
    ensures ProcOf(s', role).failures == ProcOf(s, role).failures
    ensures ProcOf(s', role).history == ProcOf(s, role).history
    ensures !ProcOf(s, role).pc.Settling? && !ProcOf(s', role).pc.Settling?
    ensures ProcOf(s', Other(role)) == ProcOf(s, Other(role))
  {
  }

  lemma {:induction false} RunCounted(cfg: Config, start: State, es: seq<Event>, s: State)
    requires start.worker == RESTARTED && start.retrier == RESTARTED && Exec(cfg, start, es) == Some(s)
    ensures Counted(cfg, s.worker) && Counted(cfg, s.retrier)
    decreases |es|
  {
    if es != [] {
      var n := |es| - 1;
      var m := Exec(cfg, start, es[..n]).value;
      RunCounted(cfg, start, es[..n], m);
      StepCounted(cfg, m, es[n], s);
    }
  }

  lemma StepCounted(cfg: Config, s: State, e: Event, s': State)
    requires Counted(cfg, s.worker) && Counted(cfg, s.retrier) && Step(cfg, s, e) == Some(s')
    ensures Counted(cfg, s'.worker) && Counted(cfg, s'.retrier)
  {
    match e
    case Do(role, a) => ActCounted(cfg, s, role, a, s');
    case Move(m) => MoveLeavesProcs(s, m, s');
    case _ =>
  }

  lemma ActCounted(cfg: Config, s: State, role: Role, a: Action, s': State)
    requires Counted(cfg, s.worker) && Counted(cfg, s.retrier) && Act(cfg, s, role, a) == Some(s')
    ensures Counted(cfg, s'.worker) && Counted(cfg, s'.retrier)
  {
    assert Counted(cfg, ProcOf(s, role)) && Counted(cfg, ProcOf(s, Other(role)));
    if a.Commit? {
      CommitCounted(cfg, s, role, s');
    } else if a.Settle? {
      SettleCounted(cfg, s, role, s');
    } else {
      OtherActsCount(cfg, s, role, a, s');
    }
    assert Counted(cfg, ProcOf(s', role)) && Counted(cfg, ProcOf(s', Other(role)));
  }

  lemma MoveLeavesProcs(s: State, m: SweepMove, s': State)
    requires Sweeping(s, m) == Some(s')
    ensures s'.worker == s.worker && s'.retrier == s.retrier
  {
  }

  /** The streak that kills. */
  function Limit(cfg: Config): nat {
    if cfg.breakerThreshold <= 1 then 1 else cfg.breakerThreshold
  }

  /** A process dies of its breaker exactly when the transient failures since its
      last success or parse failure reach the limit, never beyond it, and by then
      the failing record's envelope is published and its offset committed. */
  lemma BreakerKillsAtItsLimit(cfg: Config, start: State, es: seq<Event>, s: State, role: Role, s': State)
    requires Reaches(cfg, start, es, s) && Step(cfg, s, Do(role, Settle)) == Some(s')
    ensures var pr := ProcOf(s, role);
            pr.pc.Settling? && |pr.history| > 0 &&
            Streak(pr.history) <= Limit(cfg) &&
            (ProcOf(s', role) == RESTARTED <==>
               Streak(pr.history) == Limit(cfg) && pr.pc.outcome == TransientFailure) &&
            (ProcOf(s', role) != RESTARTED ==> ProcOf(s', role).failures == Streak(pr.history)) &&
            var src := TopicOf(s, SourceTopic(role));
            pr.pc.part < |src.committed| && src.committed[pr.pc.part] >= 1 &&
            Resolved(s, role, Coord(SourceTopic(role), pr.pc.part, src.committed[pr.pc.part] - 1), pr.pc.outcome)
  {
    ReachableCounted(cfg, start, es, s);
    SettleKills(cfg, s, role, s');
    SettlingIsDurable(cfg, start, es, s, role);
  }

  lemma ReachableCounted(cfg: Config, start: State, es: seq<Event>, s: State)
    requires Reaches(cfg, start, es, s)
    ensures Counted(cfg, s.worker) && Counted(cfg, s.retrier)
  {
    var a: nat, b: nat, c: nat, now: int :| start == Initial(a, b, c, now);
    RunCounted(cfg, start, es, s);
  }

  /** Once committed, a message is dealt with as its outcome says. */
  lemma SettlingIsDurable(cfg: Config, start: State, es: seq<Event>, s: State, role: Role)
    requires Reaches(cfg, start, es, s) && ProcOf(s, role).pc.Settling?
    ensures var pc, src := ProcOf(s, role).pc, TopicOf(s, SourceTopic(role));
            pc.part < |src.committed| && src.committed[pc.part] >= 1 &&
            Resolved(s, role, Coord(SourceTopic(role), pc.part, src.committed[pc.part] - 1), pc.outcome)
  {
    ReachableInv(cfg, start, es, s);
    assert ProcOk(cfg, s, role);
  }

  lemma SettleKills(cfg: Config, s: State, role: Role, s': State)
    requires Counted(cfg, s.worker) && Counted(cfg, s.retrier) && OnSettle(cfg, s, role) == Some(s')
    ensures var pr := ProcOf(s, role);
            pr.pc.Settling? && |pr.history| > 0 &&
            Streak(pr.history) <= Limit(cfg) &&
            (ProcOf(s', role) == RESTARTED <==>
               Streak(pr.history) == Limit(cfg) && pr.pc.outcome == TransientFailure) &&
            (ProcOf(s', role) != RESTARTED ==> ProcOf(s', role).failures == Streak(pr.history))
  {
    assert Counted(cfg, ProcOf(s, role));
  }

  /** Everywhere else in its lifetime a live process is below the limit. */
  lemma AliveBelowLimit(cfg: Config, start: State, es: seq<Event>, s: State, role: Role)
    requires Reaches(cfg, start, es, s) && !ProcOf(s, role).pc.Settling?
    ensures ProcOf(s, role).failures == Streak(ProcOf(s, role).history) < Limit(cfg)
  {
    ReachableCounted(cfg, start, es, s);
    assert Counted(cfg, ProcOf(s, role));
  }
}
