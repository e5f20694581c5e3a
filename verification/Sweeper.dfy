/** The sweeper's drain loop over the DLQ: read positions, paused partitions, the
    snapshot of end offsets, explicit per-record commits and the run's counters. */
module Sweeper {
  import opened Model
  import opened Failures
  import opened EditsTable
  import opened Pipeline

  /** What other processes do to the DLQ and to the table. */
  datatype Meanwhile = Appends(part: nat, value: Payload) | Writes(write: Write)

  /** What one turn of the loop meets: what other processes do meanwhile, a consumer
      timeout, and, for a record that is handled, the model's answer, how the write
      ends and where a requeued envelope lands. */
  datatype Turn = Turn(
    meanwhile: seq<Meanwhile>,
    timeout: bool,
    reply: Reply,
    written: WriteResult,
    tookEffect: bool,
    target: nat,
    now: int)

  /** How a run ends: nothing left to read, a read timed out early, the limit was
      reached, or a misconfigured model or a lost database ended it. */
  datatype Exit = Drained | TimedOut | LimitReached | Aborted

  /** A record the run has finished with; `target` and `tail` say where its
      requeued envelope landed, if it was requeued. */
  datatype Handled =
    Handled(part: nat, offset: nat, value: Payload, key: SweepKey, turn: Turn, target: nat, tail: nat)

  /** A failure no record can be blamed for. */
  predicate Aborts(value: Payload, turn: Turn) {
    DecodeDlq(value).Ok? &&
    (turn.reply.ConfigError? || (turn.reply.Answer? && turn.written.ConnectionLost?))
  }

  /** What becomes of a record, given its turn. */
  function Disposition(value: Payload, turn: Turn): SweepKey {
    if DecodeDlq(value).Err? then SkippedOver
    else if turn.reply.Fails? then Requeued
    else if turn.written.Written? then Reclassified
    else SkippedOver
  }

  function Requeue(value: Payload, turn: Turn, message: Coord): Payload
    requires DecodeDlq(value).Ok? && turn.reply.Fails?
  {
    EnvelopeJson(RequeuedEnvelope(DecodeDlq(value).value, turn.reply.kind, turn.reply.error, message, turn.now))
  }

  /** The next sweep can read what this one requeues: the same edit and first
      failure, one attempt more, and a reason that names the latest failure. */
  lemma {:induction false} RequeueIsReadable(value: Payload, turn: Turn, message: Coord)
    requires DecodeDlq(value).Ok? && turn.reply.Fails?
    ensures var job, out := DecodeDlq(value).value, Requeue(value, turn, message);
            DecodeDlq(out) == Ok(Job(job.edit, job.attempts + 1,
                                     if job.firstFailedAt.Some? then job.firstFailedAt else Some(turn.now), None)) &&
            out.env.kafka == message && out.env.source == FromSweeper && out.env.error == turn.reply.error &&
            out.env.reason == (if turn.reply.kind == Unparseable then ParseFailed else TransientExhausted) &&
            out.env.lastFailedAt == turn.now && out.env.raw == None && out.env.notBefore == Absent
  {
  }

  // ------------------------------------------------------------------ measures

  function LeftFrom(position: seq<nat>, ends: seq<nat>, p: nat): nat
    decreases |position| - p
  {
    if p >= |position| || p >= |ends| then 0
    else (if position[p] < ends[p] then ends[p] - position[p] else 0) + LeftFrom(position, ends, p + 1)
  }

  function UnpausedFrom(paused: seq<bool>, p: nat): nat
    decreases |paused| - p
  {
    if p >= |paused| then 0 else (if paused[p] then 0 else 1) + UnpausedFrom(paused, p + 1)
  }

  function Sum(xs: seq<nat>): nat {
    if xs == [] then 0 else Sum(xs[..|xs| - 1]) + xs[|xs| - 1]
  }

  lemma {:induction false} ReadingLeavesLess(position: seq<nat>, ends: seq<nat>, q: nat, p: nat)
    requires |position| == |ends| && q < |position|
    ensures LeftFrom(position[q := position[q] + 1], ends, p) ==
            LeftFrom(position, ends, p) - if p <= q && position[q] < ends[q] then 1 else 0
    decreases |position| - p
  {
    if p < |position| {
      ReadingLeavesLess(position, ends, q, p + 1);
    }
  }

  lemma {:induction false} PausingLeavesLess(paused: seq<bool>, q: nat, p: nat)
    requires q < |paused| && !paused[q]
    ensures UnpausedFrom(paused[q := true], p) == UnpausedFrom(paused, p) - if p <= q then 1 else 0
    decreases |paused| - p
  {
    if p < |paused| {
      PausingLeavesLess(paused, q, p + 1);
    }
  }

  lemma {:induction false} SumUpdate(xs: seq<nat>, q: nat, x: nat)
    requires q < |xs|
    ensures Sum(xs[q := x]) == Sum(xs) - xs[q] + x
    decreases |xs|
  {
    var n := |xs| - 1;
    if q == n {
      assert xs[q := x][..n] == xs[..n];
    } else {
      SumUpdate(xs[..n], q, x);
      assert xs[q := x][..n] == xs[..n][q := x];
    }
  }

  function Lengths(parts: seq<seq<Payload>>): seq<nat> {
    seq(|parts|, p requires 0 <= p < |parts| => |parts[p]|)
  }

  /** Records of the DLQ that are still owed a sweep. */
  function Unresolved(parts: seq<seq<Payload>>, committed: seq<nat>): int {
    Sum(Lengths(parts)) - Sum(committed)
  }

  /** How many of the handled records came from partition `p`. */
  function From(hs: seq<Handled>, p: nat): nat {
    if hs == [] then 0
    else From(hs[..|hs| - 1], p) + if hs[|hs| - 1].part == p then 1 else 0
  }

  function CountKey(hs: seq<Handled>, key: SweepKey): nat {
    if hs == [] then 0
    else CountKey(hs[..|hs| - 1], key) + if hs[|hs| - 1].key == key then 1 else 0
  }

  lemma CountSnoc(hs: seq<Handled>, h: Handled)
    ensures forall p :: From(hs + [h], p) == From(hs, p) + if h.part == p then 1 else 0
    ensures forall key :: CountKey(hs + [h], key) == CountKey(hs, key) + if h.key == key then 1 else 0
  {
    assert (hs + [h])[..|hs|] == hs;
  }

  ghost predicate Grows(a: seq<seq<Payload>>, b: seq<seq<Payload>>) {
    |a| == |b| && forall p | 0 <= p < |a| :: a[p] <= b[p]
  }

  /** One more record somewhere. */
  lemma LengthsOfAppend(parts: seq<seq<Payload>>, p: nat, value: Payload)
    requires p < |parts|
    ensures Sum(Lengths(parts[p := parts[p] + [value]])) == Sum(Lengths(parts)) + 1
  {
    assert Lengths(parts[p := parts[p] + [value]]) == Lengths(parts)[p := |parts[p]| + 1];
    SumUpdate(Lengths(parts), p, |parts[p]| + 1);
  }

  // --------------------------------------------------------------- the ledger

  /** A run as a value: the log and the commits it started from, its snapshot of
      the end offsets, and everything the loop updates. `handled` lists the records
      it has finished with, `arrived` counts the records others appended. */
  datatype Run = Run(
    startParts: seq<seq<Payload>>, start: seq<nat>, ends: seq<nat>,
    parts: seq<seq<Payload>>, committed: seq<nat>, position: seq<nat>, paused: seq<bool>, rows: Table,
    reclassified: nat, requeued: nat, skipped: nat,
    handled: seq<Handled>, arrived: nat)

  ghost predicate Shaped(r: Run) {
    && |r.start| == |r.ends| == |r.parts| == |r.committed| == |r.position| == |r.paused|
    && Grows(r.startParts, r.parts)
    && forall p | 0 <= p < |r.parts| :: r.start[p] <= |r.startParts[p]| && r.ends[p] <= |r.startParts[p]|
  }

  /** A handled record lay below the snapshot and met the disposition its turn
      asks for; a requeued one has its envelope at the tail, beyond the snapshot. */
  ghost predicate Fits(r: Run, h: Handled)
    requires Shaped(r)
  {
    && h.part < |r.parts| && h.offset < r.ends[h.part] && r.startParts[h.part][h.offset] == h.value
    && !Aborts(h.value, h.turn) && h.key == Disposition(h.value, h.turn)
    && (h.key == Requeued ==>
          h.target < |r.parts| && r.ends[h.target] <= h.tail < |r.parts[h.target]| &&
          r.parts[h.target][h.tail] == Requeue(h.value, h.turn, Coord(Dlq, h.part, h.offset)))
    && (h.key == Reclassified ==>
          var id := DecodeDlq(h.value).value.edit.id;
          id in r.rows && r.rows[id].status == Classified)
  }

  /** The k-th handled record is the next one of its partition. */
  ghost predicate EntryOk(r: Run, k: nat)
    requires Shaped(r) && k < |r.handled|
  {
    Fits(r, r.handled[k]) &&
    r.handled[k].offset == r.start[r.handled[k].part] + From(r.handled[..k], r.handled[k].part)
  }

  /** Partition by partition the handled records are the contiguous run that the
      commits cover, each once and in order. */
  ghost predicate Ledger(r: Run) {
    && Shaped(r)
    && (forall p: nat | p < |r.parts| :: r.committed[p] == r.start[p] + From(r.handled, p))
    && (forall k: nat | k < |r.handled| :: EntryOk(r, k))
  }

  /** The counters agree with the ledger, and the log has grown by the arrivals,
      the requeues and `extra` records more. */
  ghost predicate Counted(r: Run, extra: nat) {
    && r.reclassified == CountKey(r.handled, Reclassified)
    && r.requeued == CountKey(r.handled, Requeued)
    && r.skipped == CountKey(r.handled, SkippedOver)
    && Sum(r.committed) == Sum(r.start) + |r.handled|
    && Sum(Lengths(r.parts)) == Sum(Lengths(r.startParts)) + r.arrived + r.requeued + extra
  }

  /** An unpaused partition is read exactly up to its commit; a paused one has been
      read one record past it, at or beyond its end offset. */
  ghost predicate PositionOk(r: Run, p: nat)
    requires Shaped(r) && p < |r.parts|
  {
    if r.paused[p] then r.position[p] == r.committed[p] + 1 && r.ends[p] <= r.committed[p]
    else r.position[p] == r.committed[p]
  }

  /** What holds at every loop head. */
  ghost predicate LoopInv(r: Run) {
    Ledger(r) && Counted(r, 0) && forall p: nat | p < |r.parts| :: PositionOk(r, p)
  }

  /** Inside the loop body: the record at the committed offset of `p` is read. */
  ghost predicate Reading(r: Run, p: nat) {
    && Ledger(r) && p < |r.parts| && !r.paused[p] && r.position[p] == r.committed[p] + 1
    && r.committed[p] < r.ends[p]
    && forall q: nat | q < |r.parts| && q != p :: PositionOk(r, q)
  }

  // --------------------------------------------------- what each update keeps

  function Bump(n: nat, key: SweepKey, counted: SweepKey): nat {
    if key == counted then n + 1 else n
  }

  /** `_finish` as a function: the record's own offset is committed and counted. */
  function Finished(r: Run, h: Handled): Run
    requires h.part < |r.committed|
  {
    r.(committed := r.committed[h.part := h.offset + 1],
       reclassified := Bump(r.reclassified, h.key, Reclassified),
       requeued := Bump(r.requeued, h.key, Requeued),
       skipped := Bump(r.skipped, h.key, SkippedOver),
       handled := r.handled + [h])
  }

  lemma FinishedLedger(r: Run, h: Handled)
    requires Ledger(r) && Fits(r, h) && h.offset == r.committed[h.part]
    ensures Ledger(Finished(r, h))
  {
    CountSnoc(r.handled, h);
    var r' := Finished(r, h);
    assert Shaped(r');
    forall k: nat | k < |r'.handled| ensures EntryOk(r', k) {
      if k < |r.handled| {
        assert EntryOk(r, k) && r'.handled[k] == r.handled[k] && r'.handled[..k] == r.handled[..k];
      } else {
        assert r'.handled[..k] == r.handled;
      }
    }
  }

  lemma FinishedCounts(r: Run, h: Handled)
    requires Counted(r, if h.key == Requeued then 1 else 0)
    requires h.part < |r.committed| && h.offset == r.committed[h.part]
    ensures Counted(Finished(r, h), 0)
  {
    CountSnoc(r.handled, h);
    SumUpdate(r.committed, h.part, h.offset + 1);
  }

  lemma FinishedOk(r: Run, h: Handled)
    requires Reading(r, h.part) && Fits(r, h) && h.offset == r.committed[h.part]
    requires Counted(r, if h.key == Requeued then 1 else 0)
    ensures LoopInv(Finished(r, h))
  {
    FinishedLedger(r, h);
    FinishedCounts(r, h);
    var r' := Finished(r, h);
    forall p: nat | p < |r'.parts| ensures PositionOk(r', p) {
      assert p != h.part ==> PositionOk(r, p);
    }
  }

  /** Records appended and rows written meanwhile change nothing in the ledger. */
  lemma LedgerStays(r: Run, r': Run)
    requires Ledger(r) && Grows(r.parts, r'.parts)
    requires r' == r.(parts := r'.parts, rows := r'.rows, arrived := r'.arrived)
    requires forall id | id in r.rows && r.rows[id].status == Classified ::
               id in r'.rows && r'.rows[id].status == Classified
    ensures Ledger(r')
  {
    forall p | 0 <= p < |r.parts| ensures r'.startParts[p] <= r'.parts[p] {
      assert r.startParts[p] <= r.parts[p] <= r'.parts[p];
    }
    assert Shaped(r');
    forall k: nat | k < |r.handled| ensures EntryOk(r', k) {
      assert EntryOk(r, k);
      if r.handled[k].key == Requeued {
        assert r.parts[r.handled[k].target] <= r'.parts[r.handled[k].target];
      }
    }
  }

  function Arrived(r: Run, p: nat, value: Payload): Run
    requires p < |r.parts|
  {
    r.(parts := r.parts[p := r.parts[p] + [value]], arrived := r.arrived + 1)
  }

  /** Another process appends a record. */
  lemma ArrivedOk(r: Run, p: nat, value: Payload)
    requires LoopInv(r) && p < |r.parts|
    ensures LoopInv(Arrived(r, p, value))
  {
    var r' := Arrived(r, p, value);
    LedgerStays(r, r');
    LengthsOfAppend(r.parts, p, value);
    forall q: nat | q < |r'.parts| ensures PositionOk(r', q) {
      assert PositionOk(r, q);
    }
  }

  /** Another process writes a row. */
  lemma RowsWrittenOk(r: Run, w: Write)
    requires LoopInv(r)
    ensures LoopInv(r.(rows := Apply(r.rows, w)))
  {
    var r' := r.(rows := Apply(r.rows, w));
    LedgerStays(r, r');
    forall q: nat | q < |r'.parts| ensures PositionOk(r', q) {
      assert PositionOk(r, q);
    }
  }

  function Republished(r: Run, q: nat, value: Payload): Run
    requires q < |r.parts|
  {
    r.(parts := r.parts[q := r.parts[q] + [value]])
  }

  lemma RepublishedOk(r: Run, p: nat, q: nat, value: Payload)
    requires Reading(r, p) && Counted(r, 0) && q < |r.parts|
    ensures Reading(Republished(r, q, value), p) && Counted(Republished(r, q, value), 1)
    ensures var r' := Republished(r, q, value);
            r'.ends[q] <= |r.parts[q]| < |r'.parts[q]| && r'.parts[q][|r.parts[q]|] == value
  {
    var r' := Republished(r, q, value);
    LedgerStays(r, r');
    LengthsOfAppend(r.parts, q, value);
    assert r.startParts[q] <= r.parts[q];
    forall x: nat | x < |r'.parts| && x != p ensures PositionOk(r', x) {
      assert PositionOk(r, x);
    }
  }

  lemma RewrittenOk(r: Run, p: nat, w: Write)
    requires Reading(r, p) && Counted(r, 0) && w.SuccessWrite?
    ensures var r' := r.(rows := Apply(r.rows, w));
            Reading(r', p) && Counted(r', 0) && w.edit.id in r'.rows && r'.rows[w.edit.id].status == Classified
  {
    var r' := r.(rows := Apply(r.rows, w));
    LedgerStays(r, r');
    forall x: nat | x < |r'.parts| && x != p ensures PositionOk(r', x) {
      assert PositionOk(r, x);
    }
  }

  function Read(r: Run, p: nat): Run
    requires p < |r.position|
  {
    r.(position := r.position[p := r.position[p] + 1])
  }

  lemma ReadOk(r: Run, p: nat)
    requires LoopInv(r) && p < |r.parts| && !r.paused[p]
    ensures r.committed[p] < r.ends[p] ==> Reading(Read(r, p), p) && Counted(Read(r, p), 0)
    ensures r.ends[p] <= r.committed[p] ==> LoopInv(Read(r, p).(paused := r.paused[p := true]))
  {
    var r' := Read(r, p);
    var r'' := r'.(paused := r.paused[p := true]);
    LedgerMoves(r, r');
    LedgerMoves(r, r'');
    forall x: nat | x < |r.parts| && x != p ensures PositionOk(r', x) && PositionOk(r'', x) {
      assert PositionOk(r, x);
    }
    assert PositionOk(r, p);
  }

  lemma LedgerMoves(r: Run, r': Run)
    requires Ledger(r) && r' == r.(position := r'.position, paused := r'.paused)
    requires |r'.position| == |r.position| && |r'.paused| == |r.paused|
    ensures Ledger(r')
  {
    forall k: nat | k < |r.handled| ensures EntryOk(r', k) {
      assert EntryOk(r, k);
    }
  }

  function TargetOf(r: Run, p: nat, turn: Turn): nat {
    if turn.target < |r.parts| then turn.target else p
  }

  /** The ledger entry a record that is not aborted gets. */
  function EntryOf(r: Run, p: nat, turn: Turn): Handled
    requires p < |r.parts| && p < |r.committed| && r.committed[p] < |r.parts[p]|
  {
    var value := r.parts[p][r.committed[p]];
    var key := Disposition(value, turn);
    var q := TargetOf(r, p, turn);
    if key == Requeued then Handled(p, r.committed[p], value, key, turn, q, |r.parts[q]|)
    else Handled(p, r.committed[p], value, key, turn, 0, 0)
  }

  /** What handling the record at the committed offset of `p` writes or appends. */
  function Worked(r: Run, p: nat, turn: Turn): Run
    requires p < |r.parts| && p < |r.committed| && r.committed[p] < |r.parts[p]|
  {
    var value := r.parts[p][r.committed[p]];
    var decoded := DecodeDlq(value);
    if decoded.Err? || turn.reply.ConfigError? then r
    else if turn.reply.Fails? then
      Republished(r, TargetOf(r, p, turn), Requeue(value, turn, Coord(Dlq, p, r.committed[p])))
    else if turn.written.Written? || turn.tookEffect then
      r.(rows := Apply(r.rows, SuccessWrite(decoded.value.edit, turn.reply.verdict, turn.now)))
    else r
  }

  /** The run after the record that was read from `p`: worked on, then finished,
      or left where it is when the failure is not the record's. */
  function HandledRun(r: Run, p: nat, turn: Turn): Run
    requires p < |r.parts| && p < |r.committed| && r.committed[p] < |r.parts[p]|
  {
    var worked := Worked(r, p, turn);
    if Aborts(r.parts[p][r.committed[p]], turn) then worked else Finished(worked, EntryOf(r, p, turn))
  }

  lemma WorkedKeeps(r: Run, p: nat, turn: Turn)
    requires Reading(r, p) && Counted(r, 0) && r.committed[p] < |r.parts[p]|
    ensures var worked := Worked(r, p, turn);
            Reading(worked, p) && worked.handled == r.handled && worked.committed == r.committed &&
            Counted(worked, if EntryOf(r, p, turn).key == Requeued then 1 else 0)
  {
    var value, worked := r.parts[p][r.committed[p]], Worked(r, p, turn);
    var decoded := DecodeDlq(value);
    if decoded.Err? || turn.reply.ConfigError? {
      assert worked == r && EntryOf(r, p, turn).key != Requeued;
    } else if turn.reply.Fails? {
      var q, out := TargetOf(r, p, turn), Requeue(value, turn, Coord(Dlq, p, r.committed[p]));
      RepublishedOk(r, p, q, out);
      assert worked == Republished(r, q, out) && EntryOf(r, p, turn).key == Requeued;
    } else if turn.written.Written? || turn.tookEffect {
      RewrittenOk(r, p, SuccessWrite(decoded.value.edit, turn.reply.verdict, turn.now));
      assert EntryOf(r, p, turn).key != Requeued;
    } else {
      assert worked == r && EntryOf(r, p, turn).key != Requeued;
    }
  }

  lemma WorkedFits(r: Run, p: nat, turn: Turn)
    requires Reading(r, p) && r.committed[p] < |r.parts[p]| && Shaped(Worked(r, p, turn))
    requires !Aborts(r.parts[p][r.committed[p]], turn)
    ensures Fits(Worked(r, p, turn), EntryOf(r, p, turn))
  {
    assert r.startParts[p] <= r.parts[p];
    var q := TargetOf(r, p, turn);
    assert r.startParts[q] <= r.parts[q];
  }

  lemma HandledRunOk(r: Run, p: nat, turn: Turn)
    requires Reading(r, p) && Counted(r, 0)
    ensures r.committed[p] < |r.parts[p]|
    ensures var r' := HandledRun(r, p, turn);
            if Aborts(r.parts[p][r.committed[p]], turn)
            then Ledger(r') && Counted(r', 0) && r'.handled == r.handled
            else LoopInv(r') && |r'.handled| == |r.handled| + 1
  {
    assert r.startParts[p] <= r.parts[p];
    WorkedKeeps(r, p, turn);
    if !Aborts(r.parts[p][r.committed[p]], turn) {
      WorkedFits(r, p, turn);
      FinishedOk(Worked(r, p, turn), EntryOf(r, p, turn));
    }
  }

  /** One commit, of the record's own offset, and one count. */
  ghost predicate Settled(r: Run, r': Run, p: nat, reclassified: nat, requeued: nat, skipped: nat)
    requires p < |r.committed|
  {
    r'.committed == r.committed[p := r.committed[p] + 1] && r'.reclassified == r.reclassified + reclassified &&
    r'.requeued == r.requeued + requeued && r'.skipped == r.skipped + skipped
  }

  /** A write that was lost or refused shows only if an attempt at it took effect. */
  ghost predicate WroteIf(r: Run, r': Run, job: Job, turn: Turn)
    requires turn.reply.Answer?
  {
    if turn.tookEffect then
      OnlyRow(r.rows, r'.rows, job.edit.id) && HoldsVerdict(r'.rows[job.edit.id], turn.reply.verdict, turn.now)
    else r'.rows == r.rows
  }

  /** What becomes of a record, class by class: skipped when there is nothing to
      classify; left alone, with the run aborted, when the model is misconfigured or
      the database lost; requeued at the tail when it still fails; skipped when the
      table refuses its verdict; and otherwise reclassified, with its row to show. */
  lemma DispositionTable(r: Run, p: nat, turn: Turn)
    requires p < |r.parts| && p < |r.committed| && r.committed[p] < |r.parts[p]|
    ensures var value, r' := r.parts[p][r.committed[p]], HandledRun(r, p, turn);
            r'.position == r.position && r'.paused == r.paused && r'.arrived == r.arrived &&
            match DecodeDlq(value)
            case Err(_) =>
              Settled(r, r', p, 0, 0, 1) && r'.parts == r.parts && r'.rows == r.rows && !Aborts(value, turn)
            case Ok(job) =>
              match turn.reply
              case ConfigError => r' == r && Aborts(value, turn)
              case Fails(_, _) =>
                var q := TargetOf(r, p, turn);
                Settled(r, r', p, 0, 1, 0) && r'.rows == r.rows && !Aborts(value, turn) &&
                r'.parts == r.parts[q := r.parts[q] + [Requeue(value, turn, Coord(Dlq, p, r.committed[p]))]]
              case Answer(v) =>
                r'.parts == r.parts &&
                match turn.written
                case Written =>
                  Settled(r, r', p, 1, 0, 0) && !Aborts(value, turn) && OnlyRow(r.rows, r'.rows, job.edit.id) &&
                  HoldsVerdict(r'.rows[job.edit.id], v, turn.now)
                case Rejected(_) => Settled(r, r', p, 0, 0, 1) && !Aborts(value, turn) && WroteIf(r, r', job, turn)
                case ConnectionLost => r' == r.(rows := r'.rows) && Aborts(value, turn) && WroteIf(r, r', job, turn)
  {
  }

  /** Reading a record below the snapshot and handling it. */
  lemma TakenOk(r: Run, p: nat, turn: Turn)
    requires LoopInv(r) && p < |r.parts| && !r.paused[p] && r.position[p] < r.ends[p]
    ensures var read := Read(r, p);
            Ledger(read) && Counted(read, 0) && read.handled == r.handled &&
            read.committed[p] == r.position[p] < |read.parts[p]| &&
            var r' := HandledRun(read, p, turn);
            Ledger(r') && Counted(r', 0) &&
            if Aborts(read.parts[p][read.committed[p]], turn) then r'.handled == r.handled
            else LoopInv(r') && |r'.handled| == |r.handled| + 1
  {
    assert PositionOk(r, p);
    ReadOk(r, p);
    HandledRunOk(Read(r, p), p, turn);
  }

  /** Reading a record at or past the snapshot only pauses its partition. */
  lemma PausedOk(r: Run, p: nat)
    requires LoopInv(r) && p < |r.parts| && !r.paused[p] && r.ends[p] <= r.position[p]
    ensures LoopInv(Read(r, p).(paused := r.paused[p := true]))
  {
    assert PositionOk(r, p);
    ReadOk(r, p);
  }

  // ------------------------------------------------------------ loops as lists

  /** One step of a run: what another process did, a partition paused, a record
      handled, or a record read and left because the limit is reached. */
  datatype LoopStep = Other(m: Meanwhile) | PauseAt(part: nat) | TakeAt(part: nat, turn: Turn) | LeaveAt(part: nat)

  /** A record of partition `p` lies below the snapshot and is next to be read. */
  predicate Takeable(r: Run, p: nat) {
    p < |r.parts| == |r.committed| == |r.position| == |r.paused| == |r.ends| &&
    !r.paused[p] && r.position[p] < r.ends[p] && r.committed[p] < |r.parts[p]|
  }

  predicate Enabled(r: Run, x: LoopStep) {
    match x
    case Other(m) => m.Appends? ==> m.part < |r.parts|
    case PauseAt(p) =>
      p < |r.parts| == |r.position| == |r.paused| == |r.ends| &&
      !r.paused[p] && r.ends[p] <= r.position[p] < |r.parts[p]|
    case TakeAt(p, _) => Takeable(r, p)
    case LeaveAt(p) => Takeable(r, p)
  }

  function After(r: Run, x: LoopStep): Run
    requires Enabled(r, x)
  {
    match x
    case Other(m) =>
      if m.Appends? then Arrived(r, m.part, m.value) else r.(rows := Apply(r.rows, m.write))
    case PauseAt(p) => Read(r, p).(paused := r.paused[p := true])
    case TakeAt(p, turn) => HandledRun(Read(r, p), p, turn)
    case LeaveAt(p) => Read(r, p)
  }

  /** A step that ends the run in the middle of its loop body. */
  predicate Ends(r: Run, x: LoopStep)
    requires Enabled(r, x)
  {
    x.LeaveAt? || (x.TakeAt? && Aborts(r.parts[x.part][r.committed[x.part]], x.turn))
  }

  /** The run after the steps, or None when one of them cannot be made. */
  function Replay(r: Run, xs: seq<LoopStep>): Option<Run> {
    if xs == [] then Some(r)
    else
      match Replay(r, xs[..|xs| - 1])
      case Some(m) => if Enabled(m, xs[|xs| - 1]) then Some(After(m, xs[|xs| - 1])) else None
      case None => None
  }

  lemma ReplaySnoc(r: Run, xs: seq<LoopStep>, x: LoopStep)
    ensures Replay(r, xs + [x]) ==
            match Replay(r, xs) { case Some(m) => if Enabled(m, x) then Some(After(m, x)) else None case None => None }
  {
    assert (xs + [x])[..|xs|] == xs;
  }

  lemma ReplayOne(r: Run, x: LoopStep)
    requires Enabled(r, x)
    ensures Replay(r, [x]) == Some(After(r, x))
  {
    ReplaySnoc(r, [], x);
    assert [] + [x] == [x];
  }

  lemma {:induction false} ReplayConcat(r: Run, xs: seq<LoopStep>, ys: seq<LoopStep>)
    ensures Replay(r, xs + ys) == match Replay(r, xs) { case Some(m) => Replay(m, ys) case None => None }
    decreases |ys|
  {
    if ys == [] {
      assert xs + ys == xs;
    } else {
      var n := |ys| - 1;
      ReplayConcat(r, xs, ys[..n]);
      assert (xs + ys)[..|xs + ys| - 1] == xs + ys[..n];
    }
  }

  /** The last of the steps ended the run. */
  predicate EndedBy(r: Run, xs: seq<LoopStep>) {
    |xs| > 0 &&
    match Replay(r, xs[..|xs| - 1])
    case Some(m) => Enabled(m, xs[|xs| - 1]) && Ends(m, xs[|xs| - 1])
    case None => false
  }

  lemma EndedSnoc(r: Run, xs: seq<LoopStep>, m: Run, x: LoopStep)
    requires Replay(r, xs) == Some(m) && Enabled(m, x)
    ensures EndedBy(r, xs + [x]) <==> Ends(m, x)
    ensures Replay(r, xs + [x]) == Some(After(m, x))
  {
    assert (xs + [x])[..|xs|] == xs;
  }

  /** What of the others' doings a log of so many partitions can show. */
  function Shown(ms: seq<Meanwhile>, partitions: nat): seq<LoopStep> {
    if ms == [] then []
    else
      var last := ms[|ms| - 1];
      Shown(ms[..|ms| - 1], partitions) + if last.Writes? || last.part < partitions then [Other(last)] else []
  }

  /** No partition has a record the consumer can be given. */
  predicate NothingLeft(r: Run) {
    |r.parts| == |r.paused| == |r.position| &&
    forall p | 0 <= p < |r.parts| :: r.paused[p] || r.position[p] >= |r.parts[p]|
  }

  /** The steps of one turn: what others did, then, unless the consumer timed out or
      has nothing left to deliver, one partition paused or one record taken with
      this turn's answers, or left. */
  ghost predicate OneTurn(r: Run, turn: Turn, ys: seq<LoopStep>) {
    var others := Shown(turn.meanwhile, |r.parts|);
    if ys == others then
      turn.timeout || (Replay(r, ys).Some? && NothingLeft(Replay(r, ys).value))
    else
      !turn.timeout && |ys| == |others| + 1 && ys[..|others|] == others &&
      var x := ys[|others|];
      !x.Other? && (x.TakeAt? ==> x.turn == turn)
  }

  /** The run once the others have done what a turn brings. */
  function Watched(r: Run, ms: seq<Meanwhile>): Run {
    if ms == [] then r
    else
      var before, x := Watched(r, ms[..|ms| - 1]), Other(ms[|ms| - 1]);
      if Enabled(before, x) then After(before, x) else before
  }

  lemma {:induction false} WatchedOk(r: Run, ms: seq<Meanwhile>)
    requires LoopInv(r)
    ensures LoopInv(Watched(r, ms)) && |Watched(r, ms).parts| == |r.parts|
    decreases |ms|
  {
    if ms != [] {
      var n := |ms| - 1;
      var before, x := Watched(r, ms[..n]), Other(ms[n]);
      WatchedOk(r, ms[..n]);
      if Enabled(before, x) {
        AfterOk(before, x);
      }
    }
  }

  lemma {:induction false} WatchedKeepsPartitions(r: Run, ms: seq<Meanwhile>)
    ensures |Watched(r, ms).parts| == |r.parts|
    decreases |ms|
  {
    if ms != [] {
      WatchedKeepsPartitions(r, ms[..|ms| - 1]);
    }
  }

  lemma {:induction false} WatchedIsReplayed(r: Run, ms: seq<Meanwhile>)
    ensures Replay(r, Shown(ms, |r.parts|)) == Some(Watched(r, ms)) && !EndedBy(r, Shown(ms, |r.parts|))
    decreases |ms|
  {
    if ms != [] {
      var n := |ms| - 1;
      WatchedKeepsPartitions(r, ms[..n]);
      WatchedIsReplayed(r, ms[..n]);
      var shown := Shown(ms[..n], |r.parts|);
      if ms[n].Writes? || ms[n].part < |r.parts| {
        ReplayOther(r, shown, Watched(r, ms[..n]), ms[n]);
      } else {
        assert shown + [] == shown;
      }
    }
  }

  lemma ReplayOther(r: Run, xs: seq<LoopStep>, m: Run, what: Meanwhile)
    requires Replay(r, xs) == Some(m) && (what.Appends? ==> what.part < |m.parts|)
    ensures Replay(r, xs + [Other(what)]) == Some(After(m, Other(what))) && !EndedBy(r, xs + [Other(what)])
  {
    EndedSnoc(r, xs, m, Other(what));
  }

  /** What others do leaves the loop's own variables alone. */
  lemma {:induction false} WatchedKeeps(r: Run, ms: seq<Meanwhile>)
    ensures var m := Watched(r, ms); r == m.(parts := r.parts, rows := r.rows, arrived := r.arrived)
    decreases |ms|
  {
    if ms != [] {
      WatchedKeeps(r, ms[..|ms| - 1]);
    }
  }

  /** How a turn of these steps ends the run, if it does. */
  function ExitOf(r: Run, turn: Turn, ys: seq<LoopStep>): Option<Exit> {
    if turn.timeout then Some(TimedOut)
    else if EndedBy(r, ys) then Some(if ys[|ys| - 1].LeaveAt? then LimitReached else Aborted)
    else if ys == Shown(turn.meanwhile, |r.parts|) then Some(Drained)
    else None
  }

  /** A turn that took `r` to `m`. */
  ghost predicate TurnDone(r: Run, turn: Turn, ys: seq<LoopStep>, exit: Option<Exit>, m: Run) {
    Replay(r, ys) == Some(m) && OneTurn(r, turn, ys) && exit == ExitOf(r, turn, ys) &&
    (turn.timeout ==> !EndedBy(r, ys))
  }

  lemma QuietTurn(r: Run, turn: Turn)
    requires LoopInv(r) && (turn.timeout || NothingLeft(Watched(r, turn.meanwhile)))
    ensures TurnDone(r, turn, Shown(turn.meanwhile, |r.parts|), Some(if turn.timeout then TimedOut else Drained),
                     Watched(r, turn.meanwhile))
  {
    WatchedIsReplayed(r, turn.meanwhile);
  }

  lemma BusyTurn(r: Run, turn: Turn, x: LoopStep)
    requires LoopInv(r) && !turn.timeout && !x.Other? && (x.TakeAt? ==> x.turn == turn)
    requires Enabled(Watched(r, turn.meanwhile), x)
    ensures var m := Watched(r, turn.meanwhile);
            TurnDone(r, turn, Shown(turn.meanwhile, |r.parts|) + [x],
                     if !Ends(m, x) then None else Some(if x.LeaveAt? then LimitReached else Aborted), After(m, x))
  {
    var others := Shown(turn.meanwhile, |r.parts|);
    WatchedIsReplayed(r, turn.meanwhile);
    EndedSnoc(r, others, Watched(r, turn.meanwhile), x);
    OneMoreStep(r, turn, others, x);
  }

  lemma OneMoreStep(r: Run, turn: Turn, others: seq<LoopStep>, x: LoopStep)
    requires others == Shown(turn.meanwhile, |r.parts|)
    requires !turn.timeout && !x.Other? && (x.TakeAt? ==> x.turn == turn)
    ensures OneTurn(r, turn, others + [x]) && others + [x] != others && (others + [x])[|others|] == x
  {
    assert |others + [x]| == |others| + 1 && (others + [x])[..|others|] == others;
  }

  /** The runs between the turns of a loop that ended with `exit`. */
  ghost predicate Unrolled(r: Run, turns: nat -> Turn, runs: seq<Run>, steps: seq<seq<LoopStep>>, exit: Exit, m: Run) {
    |runs| == |steps| > 0 && runs[0] == r && Linked(turns, runs, steps[..|steps| - 1]) &&
    TurnDone(runs[|runs| - 1], turns(|runs| - 1), steps[|runs| - 1], Some(exit), m)
  }

  /** Each turn took one run to the next, and the loop went on. */
  ghost predicate Linked(turns: nat -> Turn, runs: seq<Run>, steps: seq<seq<LoopStep>>) {
    |runs| == |steps| + 1 &&
    forall i: nat | i < |steps| :: TurnDone(runs[i], turns(i), steps[i], None, runs[i + 1])
  }

  lemma LinkedSnoc(turns: nat -> Turn, runs: seq<Run>, steps: seq<seq<LoopStep>>, ys: seq<LoopStep>,
                   exit: Option<Exit>, m: Run)
    requires Linked(turns, runs, steps) && TurnDone(runs[|steps|], turns(|steps|), ys, exit, m)
    ensures exit.None? ==> Linked(turns, runs + [m], steps + [ys])
    ensures exit.Some? ==> Unrolled(runs[0], turns, runs, steps + [ys], exit.value, m)
  {
    assert (steps + [ys])[..|steps|] == steps;
  }

  function Flat(steps: seq<seq<LoopStep>>): seq<LoopStep> {
    if steps == [] then [] else Flat(steps[..|steps| - 1]) + steps[|steps| - 1]
  }

  /** Turn by turn, the steps replay the run. */
  lemma {:induction false} LinkedIsReplayed(turns: nat -> Turn, runs: seq<Run>, steps: seq<seq<LoopStep>>)
    requires Linked(turns, runs, steps)
    ensures Replay(runs[0], Flat(steps)) == Some(runs[|steps|])
    decreases |steps|
  {
    if steps != [] {
      var n := |steps| - 1;
      LinkedIsReplayed(turns, runs[..n + 1], steps[..n]);
      ReplayConcat(runs[0], Flat(steps[..n]), steps[n]);
    }
  }

  lemma UnrolledIsReplayed(r: Run, turns: nat -> Turn, runs: seq<Run>, steps: seq<seq<LoopStep>>, exit: Exit, m: Run)
    requires Unrolled(r, turns, runs, steps, exit, m)
    ensures Replay(r, Flat(steps)) == Some(m)
  {
    var n := |steps| - 1;
    LinkedIsReplayed(turns, runs, steps[..n]);
    ReplayConcat(r, Flat(steps[..n]), steps[n]);
  }

  /** A run ends with a timeout exactly when its last turn, and no earlier one, timed
      out; at the limit or aborted exactly when that turn's last step says so; and
      otherwise drained, with nothing left to deliver. */
  ghost predicate EndsAsItsTurnsSay(turns: nat -> Turn, runs: seq<Run>, steps: seq<seq<LoopStep>>, exit: Exit, m: Run) {
    |runs| == |steps| > 0 &&
    var n := |steps| - 1;
    var last := steps[n];
    && (forall i: nat | i < n :: !turns(i).timeout)
    && (exit == TimedOut <==> turns(n).timeout)
    && (exit == LimitReached <==> EndedBy(runs[n], last) && last[|last| - 1].LeaveAt?)
    && (exit == Aborted <==> EndedBy(runs[n], last) && last[|last| - 1].TakeAt?)
    && (exit == Drained <==> !turns(n).timeout && !EndedBy(runs[n], last))
    && (exit == Drained ==> NothingLeft(m))
  }

  lemma UnrolledEnds(r: Run, turns: nat -> Turn, runs: seq<Run>, steps: seq<seq<LoopStep>>, exit: Exit, m: Run)
    requires Unrolled(r, turns, runs, steps, exit, m)
    ensures EndsAsItsTurnsSay(turns, runs, steps, exit, m)
  {
    var n := |steps| - 1;
    forall i: nat | i < n ensures !turns(i).timeout {
      assert TurnDone(runs[i], turns(i), steps[..n][i], None, runs[i + 1]);
    }
  }

  /** Every step keeps the ledger, and the loop's invariant unless it ends the run. */
  lemma AfterOk(r: Run, x: LoopStep)
    requires LoopInv(r) && Enabled(r, x)
    ensures Ledger(After(r, x)) && Counted(After(r, x), 0)
    ensures !Ends(r, x) ==> LoopInv(After(r, x))
  {
    match x
    case Other(m) =>
      if m.Appends? {
        ArrivedOk(r, m.part, m.value);
      } else {
        RowsWrittenOk(r, m.write);
      }
    case PauseAt(p) => PausedOk(r, p);
    case TakeAt(p, turn) =>
      assert PositionOk(r, p);
      TakenOk(r, p, turn);
    case LeaveAt(p) =>
      LedgerMoves(r, Read(r, p));
  }

  /** When nothing can be delivered any more the snapshot is drained. */
  lemma DrainedOk(r: Run)
    requires LoopInv(r) && forall p: nat | p < |r.parts| && !r.paused[p] :: r.position[p] >= |r.parts[p]|
    ensures forall p: nat | p < |r.parts| :: r.ends[p] <= r.committed[p]
  {
    forall p: nat | p < |r.parts| ensures r.ends[p] <= r.committed[p] {
      assert PositionOk(r, p) && r.startParts[p] <= r.parts[p];
    }
  }

  /** Commits never pass the snapshot, although read positions do. */
  lemma CommitsStayBelowSnapshot(r: Run, p: nat)
    requires Ledger(r) && p < |r.parts|
    ensures r.start[p] <= r.committed[p] && (r.committed[p] == r.start[p] || r.committed[p] <= r.ends[p])
  {
    LastOf(r, p, |r.handled|);
    assert r.handled[..|r.handled|] == r.handled;
  }

  lemma {:induction false} LastOf(r: Run, p: nat, n: nat)
    requires Ledger(r) && p < |r.parts| && n <= |r.handled|
    ensures From(r.handled[..n], p) == 0 || r.start[p] + From(r.handled[..n], p) <= r.ends[p]
    decreases n
  {
    if n > 0 {
      LastOf(r, p, n - 1);
      assert r.handled[..n][..n - 1] == r.handled[..n - 1];
      assert EntryOk(r, n - 1);
    }
  }

  lemma {:induction false} KeysPartition(hs: seq<Handled>)
    ensures |hs| == CountKey(hs, Reclassified) + CountKey(hs, Requeued) + CountKey(hs, SkippedOver)
    decreases |hs|
  {
    if hs != [] {
      KeysPartition(hs[..|hs| - 1]);
    }
  }

  /** Conservation over a run, at any of its loop heads and at its end: what the
      DLQ still owes drops by exactly the records reclassified and skipped,
      concurrent arrivals aside. */
  lemma UnresolvedDropsByResolved(r: Run)
    requires Ledger(r) && Counted(r, 0)
    ensures Unresolved(r.parts, r.committed) + r.reclassified + r.skipped ==
            Unresolved(r.startParts, r.start) + r.arrived
    ensures r.reclassified + r.requeued + r.skipped == |r.handled| == Sum(r.committed) - Sum(r.start)
  {
    KeysPartition(r.handled);
  }

  /** A run never handles what it requeued itself: that lies past the snapshot. */
  lemma NeverHandlesItsOwnRequeues(r: Run, i: nat, j: nat)
    requires Ledger(r) && i < |r.handled| && j < |r.handled| && r.handled[i].key == Requeued
    ensures r.handled[j].part != r.handled[i].target || r.handled[j].offset < r.handled[i].tail
  {
    assert EntryOk(r, i) && EntryOk(r, j);
  }

  // ------------------------------------------------------------------- one run

  class SweepRun {
    const ends: seq<nat>
    const limit: Option<int>
    var parts: seq<seq<Payload>>
    var committed: seq<nat>
    var position: seq<nat>
    var paused: seq<bool>
    var rows: Table
    var processed: nat
    var reclassified: nat
    var requeued: nat
    var skipped: nat

    ghost const start: seq<nat>
    ghost const startParts: seq<seq<Payload>>
    ghost var handled: seq<Handled>
    ghost var arrived: nat

    ghost function View(): Run
      reads this
    {
      Run(startParts, start, ends, parts, committed, position, paused, rows,
          reclassified, requeued, skipped, handled, arrived)
    }

    /** A run begins at the group's committed offsets and reads the end offsets
        once; a partition the metadata does not list gets end offset 0. */
    constructor (parts: seq<seq<Payload>>, committed: seq<nat>, listed: set<nat>, rows: Table, limit: Option<int>)
      requires |committed| == |parts|
      requires forall p | 0 <= p < |parts| :: committed[p] <= |parts[p]|
      ensures LoopInv(View()) && processed == 0 && handled == [] && arrived == 0
      ensures startParts == parts == this.parts && start == committed == this.committed
      ensures this.rows == rows && this.limit == limit
      ensures |ends| == |parts|
      ensures forall p | 0 <= p < |parts| :: ends[p] == if p in listed then |parts[p]| else 0
    {
      this.ends := seq(|parts|, p requires 0 <= p < |parts| => if p in listed then |parts[p]| else 0);
      this.limit := limit;
      this.parts, this.committed, this.position := parts, committed, committed;
      this.paused := seq(|parts|, _ => false);
      this.rows := rows;
      processed, reclassified, requeued, skipped := 0, 0, 0, 0;
      start, startParts, handled, arrived := committed, parts, [], 0;
    }

    /** Another process appends to the DLQ. */
    method Arrive(p: nat, value: Payload)
      requires p < |parts|
      modifies this`parts, this`arrived
      ensures View() == Arrived(old(View()), p, value)
    {
      parts := parts[p := parts[p] + [value]];
      arrived := arrived + 1;
    }

    /** Another process writes a row. */
    method Rewrite(w: Write)
      modifies this`rows
      ensures View() == old(View()).(rows := Apply(old(rows), w))
    {
      rows := Apply(rows, w);
    }

    /** `_finish`: commit the record's own offset, then count it. */
    method Finish(p: nat, offset: nat, key: SweepKey, ghost h: Handled)
      requires p < |committed| && h.part == p && h.offset == offset && h.key == key
      modifies this`committed, this`reclassified, this`requeued, this`skipped, this`handled
      ensures View() == Finished(old(View()), h)
    {
      committed := committed[p := offset + 1];
      reclassified := Bump(reclassified, key, Reclassified);
      requeued := Bump(requeued, key, Requeued);
      skipped := Bump(skipped, key, SkippedOver);
      handled := handled + [h];
    }

    /** One record that was read: decode, classify, then requeue, write or skip.
        Nothing is committed when the failure is not the record's. */
    method HandleRecord(p: nat, turn: Turn) returns (aborted: bool)
      requires p < |parts| && p < |committed| && committed[p] < |parts[p]|
      modifies this`parts, this`rows, this`committed, this`reclassified, this`requeued, this`skipped, this`handled
      ensures View() == HandledRun(old(View()), p, turn)
      ensures aborted <==> Aborts(old(parts[p][committed[p]]), turn)
    {
      var offset := committed[p];
      var value := parts[p][offset];
      ghost var h := EntryOf(View(), p, turn);
      var decoded := DecodeDlq(value);
      aborted := false;
      if decoded.Err? {
        Finish(p, offset, SkippedOver, h);
      } else if turn.reply.ConfigError? {
        aborted := true;
      } else if turn.reply.Fails? {
        var q := if turn.target < |parts| then turn.target else p;
        parts := parts[q := parts[q] + [Requeue(value, turn, Coord(Dlq, p, offset))]];
        Finish(p, offset, Requeued, h);
      } else {
        if turn.written.Written? || turn.tookEffect {
          rows := Apply(rows, SuccessWrite(decoded.value.edit, turn.reply.verdict, turn.now));
        }
        if turn.written.ConnectionLost? {
          aborted := true;
        } else {
          Finish(p, offset, if turn.written.Written? then Reclassified else SkippedOver, h);
        }
      }
    }

    /** A partition the consumer can still be given a record of. */
    predicate Deliverable(p: nat)
      reads this
      requires |paused| == |position| == |parts|
    {
      p < |parts| && !paused[p] && position[p] < |parts[p]|
    }

    /** What the loop still has before it. */
    function Left(): nat
      reads this`position, this`paused
    {
      LeftFrom(position, ends, 0) + UnpausedFrom(paused, 0)
    }

    /** A record at or past the snapshot: pause its partition, commit nothing. */
    method Pause(p: nat)
      requires p < |position| == |paused| == |ends| && !paused[p] && ends[p] <= position[p]
      modifies this`position, this`paused
      ensures View() == Read(old(View()), p).(paused := old(paused)[p := true])
      ensures Left() < old(Left())
    {
      ReadingLeavesLess(position, ends, p, 0);
      PausingLeavesLess(paused, p, 0);
      position := position[p := position[p] + 1];
      paused := paused[p := true];
    }

    method ReadNext(p: nat)
      requires p < |position| == |ends| && position[p] < ends[p]
      modifies this`position
      ensures View() == Read(old(View()), p) && Left() < old(Left())
    {
      ReadingLeavesLess(position, ends, p, 0);
      position := position[p := position[p] + 1];
    }

    predicate AtLimit()
      reads this
    {
      limit.Some? && processed >= limit.value
    }

    /** A record below the snapshot: it is read and, within the limit, handled. */
    method Take(p: nat, turn: Turn) returns (exit: Option<Exit>)
      requires p < |position| == |ends| && position[p] < ends[p]
      requires p < |parts| && p < |committed| && committed[p] < |parts[p]|
      modifies this`parts, this`rows, this`committed, this`position, this`processed,
               this`reclassified, this`requeued, this`skipped, this`handled
      ensures Left() < old(Left())
      ensures View() == if old(AtLimit()) then Read(old(View()), p) else HandledRun(Read(old(View()), p), p, turn)
      ensures processed == old(processed) + if old(AtLimit()) then 0 else 1
      ensures exit == if old(AtLimit()) then Some(LimitReached)
                      else if Aborts(old(parts[p][committed[p]]), turn) then Some(Aborted) else None
    {
      ReadNext(p);
      if limit.Some? && processed >= limit.value {
        return Some(LimitReached);
      }
      processed := processed + 1;
      var aborted := HandleRecord(p, turn);
      return if aborted then Some(Aborted) else None;
    }

    /** What others do while the consumer polls. */
    method Meantime(meanwhile: seq<Meanwhile>)
      modifies this`parts, this`rows, this`arrived
      ensures View() == Watched(old(View()), meanwhile)
    {
      ghost var r := View();
      var k := 0;
      while k < |meanwhile|
        invariant 0 <= k <= |meanwhile| && View() == Watched(r, meanwhile[..k])
      {
        var m := meanwhile[k];
        assert meanwhile[..k + 1][..k] == meanwhile[..k];
        match m {
          case Appends(p, value) =>
            if p < |parts| {
              Arrive(p, value);
            }
          case Writes(w) => Rewrite(w);
        }
        k := k + 1;
      }
      assert meanwhile[..k] == meanwhile;
    }

    /** Taking a record keeps what holds at the loop head, unless it ends the run. */
    method TakeBelow(p: nat, turn: Turn) returns (exit: Option<Exit>, ghost x: LoopStep)
      requires LoopInv(View()) && Deliverable(p) && position[p] < ends[p] && processed == |handled|
      modifies this`parts, this`rows, this`committed, this`position, this`processed,
               this`reclassified, this`requeued, this`skipped, this`handled
      ensures Enabled(old(View()), x) && View() == After(old(View()), x)
      ensures x == if old(AtLimit()) then LeaveAt(p) else TakeAt(p, turn)
      ensures exit == if !Ends(old(View()), x) then None else Some(if x.LeaveAt? then LimitReached else Aborted)
      ensures Ledger(View()) && Counted(View(), 0)
      ensures exit.None? ==> LoopInv(View()) && processed == |handled| && Left() < old(Left())
      ensures |old(handled)| <= |handled| <= |old(handled)| + if old(AtLimit()) then 0 else 1
      ensures exit.Some? && exit.value != Aborted ==>
                exit.value == LimitReached && old(AtLimit()) && processed == |handled|
    {
      ghost var r := View();
      assert PositionOk(r, p);
      TakenOk(r, p, turn);
      x := if AtLimit() then LeaveAt(p) else TakeAt(p, turn);
      exit := Take(p, turn);
    }

    /** One delivered record: its partition is paused at the snapshot, or it is taken. */
    method PauseOrTake(p: nat, turn: Turn) returns (exit: Option<Exit>, ghost x: LoopStep)
      requires LoopInv(View()) && Deliverable(p) && processed == |handled|
      modifies this`parts, this`rows, this`committed, this`position, this`paused, this`processed,
               this`reclassified, this`requeued, this`skipped, this`handled
      ensures Enabled(old(View()), x) && View() == After(old(View()), x)
      ensures !x.Other? && (x.TakeAt? ==> x.turn == turn)
      ensures exit == if !Ends(old(View()), x) then None else Some(if x.LeaveAt? then LimitReached else Aborted)
      ensures Ledger(View()) && Counted(View(), 0)
      ensures exit.None? ==> LoopInv(View()) && processed == |handled| && Left() < old(Left())
      ensures |old(handled)| <= |handled| <= |old(handled)| + if old(AtLimit()) then 0 else 1
      ensures exit == Some(LimitReached) ==> old(AtLimit()) && processed == |handled|
    {
      if ends[p] <= position[p] {
        PausedOk(View(), p);
        Pause(p);
        return None, PauseAt(p);
      }
      exit, x := TakeBelow(p, turn);
    }

    /** One delivered record, from whichever partition the consumer picks. */
    method TakeOne(turn: Turn) returns (exit: Option<Exit>, ghost xs: seq<LoopStep>)
      requires LoopInv(View()) && processed == |handled|
      modifies this`parts, this`rows, this`committed, this`position, this`paused, this`processed,
               this`reclassified, this`requeued, this`skipped, this`handled
      ensures if xs == [] then exit == Some(Drained) && View() == old(View()) && NothingLeft(View())
              else
                |xs| == 1 && !xs[0].Other? && (xs[0].TakeAt? ==> xs[0].turn == turn) &&
                Enabled(old(View()), xs[0]) && View() == After(old(View()), xs[0]) &&
                exit == if !Ends(old(View()), xs[0]) then None
                        else Some(if xs[0].LeaveAt? then LimitReached else Aborted)
      ensures Ledger(View()) && Counted(View(), 0)
      ensures exit.None? ==> LoopInv(View()) && processed == |handled| && Left() < old(Left())
      ensures |old(handled)| <= |handled| <= |old(handled)| + if old(AtLimit()) then 0 else 1
      ensures exit == Some(Drained) ==> forall p: nat | p < |parts| :: ends[p] <= committed[p]
      ensures exit == Some(LimitReached) ==> old(AtLimit())
      ensures exit.Some? && exit.value != Aborted ==> processed == |handled|
    {
      xs := [];
      if !exists p: nat | p < |parts| :: Deliverable(p) {
        assert forall p: nat | p < |parts| && !paused[p] :: !Deliverable(p);
        DrainedOk(View());
        return Some(Drained), xs;
      }
      var p: nat :| p < |parts| && Deliverable(p);
      ghost var x;
      exit, x := PauseOrTake(p, turn);
      xs := [x];
    }

    /** One turn of the loop: what others do meanwhile, then a timeout, the end of
        what can be delivered, or one delivered record. */
    method OneTurnOfLoop(turn: Turn) returns (exit: Option<Exit>, ghost ys: seq<LoopStep>)
      requires LoopInv(View()) && processed == |handled|
      modifies this`parts, this`rows, this`arrived, this`committed, this`position, this`paused, this`processed,
               this`reclassified, this`requeued, this`skipped, this`handled
      ensures TurnDone(old(View()), turn, ys, exit, View())
      ensures Ledger(View()) && Counted(View(), 0)
      ensures exit.None? ==> LoopInv(View()) && processed == |handled| && Left() < old(Left())
      ensures |old(handled)| <= |handled| <= |old(handled)| + if old(AtLimit()) then 0 else 1
      ensures exit == Some(Drained) ==> forall p: nat | p < |parts| :: ends[p] <= committed[p]
      ensures exit == Some(LimitReached) ==> old(AtLimit())
      ensures exit.Some? && exit.value != Aborted ==> processed == |handled|
    {
      ghost var r := View();
      ys := Shown(turn.meanwhile, |parts|);
      Meantime(turn.meanwhile);
      WatchedOk(r, turn.meanwhile);
      WatchedKeeps(r, turn.meanwhile);
      if turn.timeout {
        QuietTurn(r, turn);
        return Some(TimedOut), ys;
      }
      ghost var zs;
      exit, zs := TakeOne(turn);
      if zs == [] {
        QuietTurn(r, turn);
      } else {
        BusyTurn(r, turn, zs[0]);
        ys := ys + [zs[0]];
      }
    }

    /** The loop itself. It ends although every record may fail and be requeued and
        others keep appending, because every turn either brings a read position
        closer to its end offset or pauses a partition. */
    method Loop(turns: nat -> Turn) returns (exit: Exit, ghost runs: seq<Run>, ghost steps: seq<seq<LoopStep>>)
      requires LoopInv(View()) && processed == 0 && handled == []
      modifies this
      ensures Ledger(View()) && Counted(View(), 0)
      ensures Unrolled(old(View()), turns, runs, steps, exit, View())
      ensures exit == Drained ==> forall p: nat | p < |parts| :: ends[p] <= committed[p]
      ensures exit == LimitReached ==> limit.Some? && |handled| >= limit.value
      ensures limit.Some? ==> |handled| <= if limit.value > 0 then limit.value else 0
      ensures exit != Aborted ==> processed == |handled|
    {
      runs, steps := [View()], [];
      var i := 0;
      while true
        invariant LoopInv(View()) && processed == |handled|
        invariant |steps| == i && Linked(turns, runs, steps) && runs[0] == old(View()) && runs[i] == View()
        invariant limit.Some? ==> |handled| <= if limit.value > 0 then limit.value else 0
        decreases Left()
      {
        var ended, ys := OneTurnOfLoop(turns(i));
        LinkedSnoc(turns, runs, steps, ys, ended, View());
        if ended.Some? {
          return ended.value, runs, steps + [ys];
        }
        i := i + 1;
        runs, steps := runs + [View()], steps + [ys];
      }
    }

    /** A sweep: `steps` lists the steps of each of its turns and `runs` the runs
        they start from. It is a replay of these steps, ends as its turns say, and
        drained only with its whole snapshot committed. */
    method Sweep(turns: nat -> Turn) returns (exit: Exit, ghost runs: seq<Run>, ghost steps: seq<seq<LoopStep>>)
      requires LoopInv(View()) && processed == 0 && handled == []
      modifies this
      ensures Ledger(View()) && Counted(View(), 0)
      ensures Unrolled(old(View()), turns, runs, steps, exit, View())
      ensures Replay(old(View()), Flat(steps)) == Some(View())
      ensures EndsAsItsTurnsSay(turns, runs, steps, exit, View())
      ensures exit == Drained ==> forall p: nat | p < |parts| :: ends[p] <= committed[p]
      ensures exit == LimitReached ==> limit.Some? && |handled| >= limit.value
      ensures limit.Some? ==> |handled| <= if limit.value > 0 then limit.value else 0
      ensures exit != Aborted ==> processed == |handled|
    {
      exit, runs, steps := Loop(turns);
      UnrolledIsReplayed(old(View()), turns, runs, steps, exit, View());
      UnrolledEnds(old(View()), turns, runs, steps, exit, View());
    }
  }
}
