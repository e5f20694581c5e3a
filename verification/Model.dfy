/** The values that travel through the pipeline: edits, envelopes, log records,
    and the settings every process shares.

    JSON text is not modelled. A payload is what `json.loads` would make of the
    bytes, and a member of an envelope is `Absent`, `Bad` (present, but of a
    type or value its reader rejects) or `Good`. Time is an integer number of
    clock ticks. */
module Model {

  datatype Option<+T> = None | Some(value: T)

  datatype Result<+T> = Ok(value: T) | Err(error: string)

  /** One member of a JSON object, as its reader sees it. */
  datatype Field<+T> = Absent | Bad | Good(value: T)

  datatype TopicName = Raw | Retry | Dlq

  /** Where a record sits: the `kafka` member of an envelope. */
  datatype Coord = Coord(topic: TopicName, part: nat, offset: nat)

  datatype Reason = TransientExhausted | ParseFailed | Malformed | RetriesExhausted | OtherReason

  datatype Source = FromWorker | FromRetrier | FromSweeper

  /** A decoded edit with an id; `id` is the text form that keys its row. */
  datatype Edit = Edit(
    id: string,
    title: Option<string>,
    user: Option<string>,
    comment: Option<string>,
    byteDelta: Option<int>,
    eventTime: Option<string>)

  /** `Opaque` stands for bytes that are neither an edit nor an envelope. */
  datatype Payload =
    | Opaque(bytes: seq<bv8>)
    | EditJson(edit: Edit)
    | EnvelopeJson(env: Envelope)

  datatype Envelope = Envelope(
    schema: Field<int>,
    reason: Reason,
    error: string,
    source: Source,
    attempts: Field<int>,
    firstFailedAt: Option<int>,
    lastFailedAt: int,
    kafka: Coord,
    edit: Field<Edit>,
    raw: Option<Payload>,
    notBefore: Field<int>)

  /** `stamp` is the record's place in the order of all appends to all topics. */
  datatype Record = Record(payload: Payload, stamp: nat)

  /** A topic together with the committed offsets of the one group that reads it. */
  datatype Topic = Topic(parts: seq<seq<Record>>, committed: seq<nat>)

  datatype Config = Config(
    maxRetryPasses: nat,
    backoffBase: nat,
    backoffMax: nat,
    breakerThreshold: int)

  /** What the classifier returns for an edit it could judge; `category` is the
      `label` column (the word is reserved in Dafny). */
  datatype Verdict = Verdict(category: string, confidence: real, reasoning: string, model: string)

  const VALID_LABELS: set<string> := {"vandalism", "substantive", "trivia", "unclear"}

  predicate ValidVerdict(v: Verdict) {
    v.category in VALID_LABELS && 0.0 <= v.confidence <= 1.0
  }

  /** The two failures of a classify pass that are routed instead of crashing. */
  datatype FailureKind = Unavailable | Unparseable

  /** How a statement against Postgres ends. A lost connection may or may not
      have let the statement take effect; a data error never does. */
  datatype DbResult = Done | LostBefore | LostAfter | DataError(error: string)

  function Min(a: int, b: int): (m: int)
    ensures m <= a && m <= b && (m == a || m == b)
  {
    if a <= b then a else b
  }

  /** `inner` can be recovered from `outer`: as its edit, as its parked bytes, or
      from inside those bytes. */
  predicate Contains(outer: Payload, inner: Payload)
    decreases outer
  {
    outer.EnvelopeJson? &&
    ((inner.EditJson? && outer.env.edit == Good(inner.edit)) ||
     (outer.env.raw.Some? &&
      (outer.env.raw.value == inner || Contains(outer.env.raw.value, inner))))
  }
}
