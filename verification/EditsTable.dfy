/** The `edits` table: the two upserts, what any sequence of them leaves in a
    row, and the wrapper that repeats a write after a lost connection. */
module EditsTable {
  import opened Model

  datatype Status = Classified | Failed

  /** The columns both upserts bind on insert and neither touches afterwards. */
  datatype Described = Described(
    title: Option<string>,
    editor: Option<string>,
    comment: Option<string>,
    byteDelta: Option<int>,
    eventTime: Option<string>)

  /** The reasoning column: the model's own words, or the provenance of a failure. */
  datatype Reasoning = Given(text: string) | Provenance(reason: Reason, error: string)

  datatype Row = Row(
    about: Described,
    category: Option<string>,
    confidence: Option<real>,
    reasoning: Reasoning,
    model: Option<string>,
    status: Status,
    processedAt: int)

  type Table = map<string, Row>

  datatype Write =
    | SuccessWrite(edit: Edit, verdict: Verdict, at: int)
    | FailureWrite(edit: Edit, reason: Reason, error: string, at: int)

  function Describe(edit: Edit): Described {
    Described(edit.title, edit.user, edit.comment, edit.byteDelta, edit.eventTime)
  }

  function ReasonText(reason: Reason): string {
    match reason
    case TransientExhausted => "transient_exhausted"
    case ParseFailed => "parse_failed"
    case Malformed => "malformed"
    case RetriesExhausted => "retries_exhausted"
    case OtherReason => ""
  }

  /** The text stored in the column; provenance is cut to its first 500 characters
      when it is longer. */
  function ColumnText(r: Reasoning): (text: string)
    ensures r.Given? ==> text == r.text
    ensures r.Provenance? ==>
              var full := "failed (" + ReasonText(r.reason) + "): " + r.error;
              text <= full && |text| == if |full| < 500 then |full| else 500
  {
    match r
    case Given(text) => text
    case Provenance(reason, error) =>
      var text := "failed (" + ReasonText(reason) + "): " + error;
      if |text| <= 500 then text else text[..500]
  }

  /** The row as `w` inserts it when its id is new. */
  function Inserted(w: Write): Row {
    match w
    case SuccessWrite(e, v, at) =>
      Row(Describe(e), Some(v.category), Some(v.confidence), Given(v.reasoning), Some(v.model), Classified, at)
    case FailureWrite(e, reason, error, at) =>
      Row(Describe(e), None, None, Provenance(reason, error), None, Failed, at)
  }

  /** INSERT ... ON CONFLICT (id) DO UPDATE. The failure upsert's update is
      guarded: it applies only where the status is distinct from 'classified'. */
  function Apply(t: Table, w: Write): Table {
    var id := w.edit.id;
    if id !in t then t[id := Inserted(w)]
    else if w.FailureWrite? && t[id].status == Classified then t
    else t[id := Inserted(w).(about := t[id].about)]
  }

  function ApplyAll(t: Table, ws: seq<Write>): Table {
    if ws == [] then t else Apply(ApplyAll(t, ws[..|ws| - 1]), ws[|ws| - 1])
  }

  lemma ApplyAllSnoc(t: Table, ws: seq<Write>, w: Write)
    ensures ApplyAll(t, ws + [w]) == Apply(ApplyAll(t, ws), w)
  {
    assert (ws + [w])[..|ws|] == ws;
  }

  // ------------------------------------------------------ columns, one by one

  /** The columns that hold a verdict saved at `at`. */
  ghost predicate HoldsVerdict(r: Row, v: Verdict, at: int) {
    r.status == Classified && r.category == Some(v.category) && r.confidence == Some(v.confidence) &&
    r.reasoning == Given(v.reasoning) && r.model == Some(v.model) && r.processedAt == at
  }

  /** The columns that record a failure at `at`. */
  ghost predicate HoldsFailure(r: Row, reason: Reason, error: string, at: int) {
    r.status == Failed && r.category == None && r.confidence == None && r.model == None &&
    r.reasoning == Provenance(reason, error) && r.processedAt == at
  }

  /** The columns that describe the edit. */
  ghost predicate HoldsDescription(r: Row, e: Edit) {
    r.about.title == e.title && r.about.editor == e.user && r.about.comment == e.comment &&
    r.about.byteDelta == e.byteDelta && r.about.eventTime == e.eventTime
  }

  /** Only the row of `id` may differ, and it is there afterwards. */
  ghost predicate OnlyRow(before: Table, after: Table, id: string) {
    after.Keys == before.Keys + {id} && forall other | other in before && other != id :: after[other] == before[other]
  }

  /** The description is the old row's, or the edit's when the row is new. */
  ghost predicate DescribedOnce(before: Table, after: Table, e: Edit)
    requires e.id in after
  {
    if e.id in before then after[e.id].about == before[e.id].about else HoldsDescription(after[e.id], e)
  }

  // ------------------------------------------- the outcome of an interleaving

  ghost predicate Touches(ws: seq<Write>, id: string, k: nat) {
    k < |ws| && ws[k].edit.id == id
  }

  ghost predicate SucceedsAt(ws: seq<Write>, id: string, k: nat) {
    Touches(ws, id, k) && ws[k].SuccessWrite?
  }

  ghost predicate FirstAt(ws: seq<Write>, id: string, k: nat) {
    Touches(ws, id, k) && forall j: nat | j < k :: !Touches(ws, id, j)
  }

  ghost predicate LastAt(ws: seq<Write>, id: string, k: nat) {
    Touches(ws, id, k) && forall j: nat | k < j :: !Touches(ws, id, j)
  }

  ghost predicate LastSuccessAt(ws: seq<Write>, id: string, k: nat) {
    SucceedsAt(ws, id, k) && forall j: nat | k < j :: !SucceedsAt(ws, id, j)
  }

  /** What a sequence of writes says the row of `id` must be, read off the
      sequence itself: first write for the description; last success, or else
      last failure, for everything else. */
  ghost predicate RowOutcome(ws: seq<Write>, id: string, t: Table) {
    && (id in t <==> exists k: nat :: Touches(ws, id, k))
    && (id in t ==>
          && (t[id].status == Classified <==> exists k: nat :: SucceedsAt(ws, id, k))
          && (forall k: nat | FirstAt(ws, id, k) :: HoldsDescription(t[id], ws[k].edit))
          && (forall k: nat | LastSuccessAt(ws, id, k) :: HoldsVerdict(t[id], ws[k].verdict, ws[k].at))
          && (forall k: nat | LastAt(ws, id, k) && t[id].status == Failed ::
                ws[k].FailureWrite? && HoldsFailure(t[id], ws[k].reason, ws[k].error, ws[k].at)))
  }

  /** Any interleaving of success and failure upserts, repeats included, ends in
      the row its sequence prescribes; in particular no failure, however late,
      downgrades a classified row. */
  lemma {:induction false} TableOutcome(ws: seq<Write>, id: string)
    ensures RowOutcome(ws, id, ApplyAll(map[], ws))
  {
    if ws == [] {
      assert forall k: nat :: !Touches(ws, id, k);
    } else {
      var n := |ws| - 1;
      var before, w := ws[..n], ws[n];
      TableOutcome(before, id);
      OutcomeSnoc(before, w, id, ApplyAll(map[], before));
      assert before + [w] == ws;
    }
  }

  lemma {:induction false} OutcomeSnoc(ws: seq<Write>, w: Write, id: string, t: Table)
    requires RowOutcome(ws, id, t)
    ensures RowOutcome(ws + [w], id, Apply(t, w))
  {
    if w.edit.id != id {
      UnrelatedWrite(ws, w, id, t);
    } else if id in t {
      LaterWrite(ws, w, id, t);
    } else {
      FirstWrite(ws, w, id, t);
    }
  }

  lemma UnrelatedWrite(ws: seq<Write>, w: Write, id: string, t: Table)
    requires RowOutcome(ws, id, t) && w.edit.id != id
    ensures RowOutcome(ws + [w], id, Apply(t, w))
  {
    UnrelatedReading(ws, w, id);
    assert id in Apply(t, w) <==> id in t;
    assert id in t ==> Apply(t, w)[id] == t[id];
  }

  lemma UnrelatedReading(ws: seq<Write>, w: Write, id: string)
    requires w.edit.id != id
    ensures var all := ws + [w];
            && (forall k: nat :: Touches(all, id, k) <==> Touches(ws, id, k))
            && (forall k: nat :: SucceedsAt(all, id, k) <==> SucceedsAt(ws, id, k))
            && (forall k: nat :: FirstAt(all, id, k) <==> FirstAt(ws, id, k))
            && (forall k: nat :: LastAt(all, id, k) <==> LastAt(ws, id, k))
            && (forall k: nat :: LastSuccessAt(all, id, k) <==> LastSuccessAt(ws, id, k))
            && (forall k: nat | Touches(ws, id, k) :: all[k] == ws[k])
  {
    var all := ws + [w];
    assert forall k: nat :: Touches(all, id, k) <==> Touches(ws, id, k);
    assert forall k: nat :: SucceedsAt(all, id, k) <==> SucceedsAt(ws, id, k);
  }

  lemma FirstWrite(ws: seq<Write>, w: Write, id: string, t: Table)
    requires RowOutcome(ws, id, t) && w.edit.id == id && id !in t
    ensures RowOutcome(ws + [w], id, Apply(t, w))
  {
    var all := ws + [w];
    assert Touches(all, id, |ws|);
    forall k: nat | Touches(all, id, k) ensures k == |ws| {
      assert k < |ws| ==> Touches(ws, id, k);
    }
    assert w.SuccessWrite? ==> SucceedsAt(all, id, |ws|);
  }

  lemma LaterWrite(ws: seq<Write>, w: Write, id: string, t: Table)
    requires RowOutcome(ws, id, t) && w.edit.id == id && id in t
    ensures RowOutcome(ws + [w], id, Apply(t, w))
  {
    var j: nat :| Touches(ws, id, j);
    LaterReading(ws, w, id, j);
    if w.SuccessWrite? {
      assert SucceedsAt(ws + [w], id, |ws|);
    } else if t[id].status == Classified {
      var k: nat :| SucceedsAt(ws, id, k);
      assert SucceedsAt(ws + [w], id, k);
    }
  }

  /** What one more write of the same id changes in the reading of a sequence. */
  lemma LaterReading(ws: seq<Write>, w: Write, id: string, j: nat)
    requires w.edit.id == id && Touches(ws, id, j)
    ensures var all := ws + [w];
            && Touches(all, id, j) && all[|ws|] == w
            && (forall k: nat | FirstAt(all, id, k) :: FirstAt(ws, id, k) && all[k] == ws[k])
            && (forall k: nat | LastAt(all, id, k) :: k == |ws|)
            && (forall k: nat | SucceedsAt(all, id, k) :: k == |ws| || SucceedsAt(ws, id, k))
            && (forall k: nat | LastSuccessAt(all, id, k) ::
                  if w.SuccessWrite? then k == |ws| else LastSuccessAt(ws, id, k) && all[k] == ws[k])
  {
    var all, n := ws + [w], |ws|;
    assert Touches(all, id, j) && Touches(all, id, n);
    assert forall k: nat | k < n :: Touches(all, id, k) <==> Touches(ws, id, k);
    assert forall k: nat | k < n :: SucceedsAt(all, id, k) <==> SucceedsAt(ws, id, k);
    forall k: nat | FirstAt(all, id, k) ensures FirstAt(ws, id, k) && all[k] == ws[k] {
      assert k <= j;
    }
    assert w.SuccessWrite? ==> SucceedsAt(all, id, n);
  }

  // ------------------------------------------------------------------ repeats

  /** Equal but for the time of processing. */
  ghost predicate SameButTime(a: Table, b: Table) {
    a.Keys == b.Keys && forall id | id in a :: a[id].(processedAt := 0) == b[id].(processedAt := 0)
  }

  /** A write repeated at once, at whatever time, changes only `processed_at`. */
  lemma RepeatChangesOnlyTime(t: Table, w: Write, again: int)
    ensures SameButTime(Apply(Apply(t, w), w.(at := again)), Apply(t, w))
  {
  }

  lemma ApplyKeepsSameness(a: Table, b: Table, w: Write)
    requires SameButTime(a, b)
    ensures SameButTime(Apply(a, w), Apply(b, w))
  {
    var id := w.edit.id;
    assert id in a <==> id in b;
    if id in a {
      assert a[id].(processedAt := 0) == b[id].(processedAt := 0);
      assert a[id].status == a[id].(processedAt := 0).status && b[id].status == b[id].(processedAt := 0).status;
      assert a[id].about == a[id].(processedAt := 0).about && b[id].about == b[id].(processedAt := 0).about;
    }
  }

  function Repeated(ws: seq<Write>, k: nat, again: int): seq<Write>
    requires k < |ws|
  {
    ws[..k + 1] + [ws[k].(at := again)] + ws[k + 1..]
  }

  /** Repeating the write at position `k` is invisible in the final table of the
      whole sequence, but for `processed_at`. */
  lemma {:induction false} RepeatInvisible(t: Table, ws: seq<Write>, k: nat, again: int)
    requires k < |ws|
    ensures SameButTime(ApplyAll(t, Repeated(ws, k, again)), ApplyAll(t, ws))
    decreases |ws|
  {
    var n := |ws| - 1;
    if k == n {
      assert Repeated(ws, k, again) == ws + [ws[k].(at := again)];
      ApplyAllSnoc(t, ws, ws[k].(at := again));
      RepeatChangesOnlyTime(ApplyAll(t, ws[..n]), ws[k], again);
    } else {
      RepeatInvisible(t, ws[..n], k, again);
      assert Repeated(ws, k, again) == Repeated(ws[..n], k, again) + [ws[n]];
      ApplyAllSnoc(t, Repeated(ws[..n], k, again), ws[n]);
      ApplyKeepsSameness(ApplyAll(t, Repeated(ws[..n], k, again)), ApplyAll(t, ws[..n]), ws[n]);
    }
  }

  // -------------------------------------------------------------- row shape

  ghost predicate RowShape(r: Row) {
    match r.status
    case Classified =>
      r.category.Some? && r.category.value in VALID_LABELS &&
      r.confidence.Some? && 0.0 <= r.confidence.value <= 1.0 && r.model.Some?
    case Failed => r.category.None? && r.confidence.None? && r.model.None?
  }

  ghost predicate TableShape(t: Table) {
    forall id | id in t :: RowShape(t[id])
  }

  // ----------------------------------------------------------------- the table

  datatype WriteResult = Written | ConnectionLost | Rejected(error: string)

  predicate TookEffect(how: DbResult) {
    how.Done? || how.LostAfter?
  }

  function Executed(t: Table, w: Write, how: DbResult): Table {
    if TookEffect(how) then Apply(t, w) else t
  }

  /** How a statement ends, whether a lost connection can be replaced, and how the
      statement ends on the new one. */
  datatype Fate = Fate(first: DbResult, reconnects: bool, second: DbResult)

  predicate Lost(how: DbResult) {
    how.LostBefore? || how.LostAfter?
  }

  /** How a write ends, repetition included. */
  function EndOf(f: Fate): WriteResult {
    var last := if Lost(f.first) && f.reconnects then f.second else f.first;
    match last
    case Done => Written
    case DataError(error) => Rejected(error)
    case _ => ConnectionLost
  }

  /** The table after a write and, on a new connection, its repetition. */
  function AfterWrites(t: Table, w: Write, f: Fate, again: int): Table {
    var once := Executed(t, w, f.first);
    if Lost(f.first) && f.reconnects then Executed(once, w.(at := again), f.second) else once
  }

  /** A write that went through is in the table, and whatever it came to the table
      is, but for `processed_at`, the old one or the old one with the write made
      once. */
  lemma RepeatedWrite(t: Table, w: Write, f: Fate, again: int)
    ensures var after := AfterWrites(t, w, f, again);
            SameButTime(after, Apply(t, w)) || (after == t && !EndOf(f).Written?)
  {
    RepeatChangesOnlyTime(t, w, again);
    assert SameButTime(Apply(t, w.(at := again)), Apply(t, w));
  }

  class Edits {
    var rows: Table

    constructor ()
      ensures rows == map[]
    {
      rows := map[];
    }

    /** Status of the edit's row, or None when no row exists yet. */
    method FetchEditStatus(edit: Edit) returns (status: Option<Status>)
      ensures status == if edit.id in rows then Some(rows[edit.id].status) else None
    {
      if edit.id in rows {
        status := Some(rows[edit.id].status);
      } else {
        status := None;
      }
    }

    method UpsertEdit(edit: Edit, v: Verdict, now: int)
      modifies this
      ensures rows == Apply(old(rows), SuccessWrite(edit, v, now))
      ensures OnlyRow(old(rows), rows, edit.id) && DescribedOnce(old(rows), rows, edit)
      ensures HoldsVerdict(rows[edit.id], v, now)
    {
      var row := Row(Describe(edit), Some(v.category), Some(v.confidence), Given(v.reasoning),
                     Some(v.model), Classified, now);
      if edit.id in rows {
        row := row.(about := rows[edit.id].about);
      }
      rows := rows[edit.id := row];
    }

    method UpsertFailedEdit(edit: Edit, reason: Reason, error: string, now: int)
      modifies this
      ensures rows == Apply(old(rows), FailureWrite(edit, reason, error, now))
      ensures edit.id in old(rows) && old(rows)[edit.id].status == Classified ==> rows == old(rows)
      ensures !(edit.id in old(rows) && old(rows)[edit.id].status == Classified) ==>
                OnlyRow(old(rows), rows, edit.id) && DescribedOnce(old(rows), rows, edit) &&
                HoldsFailure(rows[edit.id], reason, error, now)
    {
      var row := Row(Describe(edit), None, None, Provenance(reason, error), None, Failed, now);
      if edit.id in rows {
        if rows[edit.id].status == Classified {
          return;
        }
        row := row.(about := rows[edit.id].about);
      }
      rows := rows[edit.id := row];
    }

    /** One statement, ending as `how` says. */
    method Execute(w: Write, how: DbResult)
      modifies this
      ensures rows == Executed(old(rows), w, how)
      ensures how.Done? || how.LostAfter? ==> rows == Apply(old(rows), w)
      ensures how.DataError? || how.LostBefore? ==> rows == old(rows)
    {
      if how.Done? || how.LostAfter? {
        match w
        case SuccessWrite(e, v, at) => UpsertEdit(e, v, at);
        case FailureWrite(e, reason, error, at) => UpsertFailedEdit(e, reason, error, at);
      }
    }

    /** `write_with_reconnect`: a write lost with its connection is made once
        more on a new one. It reports success only if the write is in the table,
        and whatever it reports the table is, but for `processed_at`, the old
        one or the old one with the write made once. */
    method WriteWithReconnect(w: Write, f: Fate, again: int) returns (r: WriteResult)
      modifies this
      ensures r == EndOf(f) && rows == AfterWrites(old(rows), w, f, again)
      ensures r.Written? ==> SameButTime(rows, Apply(old(rows), w))
      ensures rows == old(rows) || SameButTime(rows, Apply(old(rows), w))
      ensures r.Written? <==> f.first.Done? || (!f.first.DataError? && f.reconnects && f.second.Done?)
      ensures r.Rejected? <==> f.first.DataError? || (!f.first.Done? && f.reconnects && f.second.DataError?)
    {
      RepeatedWrite(rows, w, f, again);
      Execute(w, f.first);
      var last := f.first;
      if Lost(f.first) && f.reconnects {
        Execute(w.(at := again), f.second);
        last := f.second;
      }
      match last
      case Done => return Written;
      case DataError(error) => return Rejected(error);
      case LostBefore => return ConnectionLost;
      case LostAfter => return ConnectionLost;
    }
  }
}
