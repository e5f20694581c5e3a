/** The model loop: bounded retries of one call, validation of its output, and the
    second pass for an unsure verdict, over a stream of replies. */
module Classifier {
  import opened Model
  import opened Failures
  import opened Pipeline

  datatype StopReason = EndTurn | Refusal | MaxTokens | OtherStop

  /** The confidence member of the parsed output; a boolean is not a number. */
  datatype Confidence = Missing | Number(value: real) | NotANumber

  /** The JSON object in the response's text. */
  datatype Parsed = Parsed(category: Option<string>, confidence: Confidence, reasoning: Option<string>)

  /** How one request ends: a response (`parsed` is None when its text is not a JSON
      object), or one of the SDK's errors. */
  datatype ModelReply =
    | Response(stop: StopReason, parsed: Option<Parsed>)
    | RateLimited(error: string)
    | ConnectionFailed(error: string)
    | KeyMissing(error: string)
    | OtherTypeError(error: string)
    | StatusError(code: int, error: string)
    | OtherApiError(error: string)

  datatype Settings = Settings(maxCalls: int, backoffBase: real, threshold: real, model: string)

  predicate Transient(r: ModelReply) {
    match r
    case RateLimited(_) => true
    case ConnectionFailed(_) => true
    case StatusError(code, _) => code >= 500 || code == 408 || code == 409
    case OtherApiError(_) => true
    case _ => false
  }

  /** What an attempt comes to. `Raised` is an error outside the taxonomy, which
      crashes the process. */
  datatype Judgement =
    | Usable(verdict: Verdict)
    | Unusable
    | Misconfigured(error: string)
    | OutOfRetries
    | Raised(error: string)

  function Clamp(x: real): real {
    var low := if x < 0.0 then 0.0 else x;
    if low > 1.0 then 1.0 else low
  }

  function Normalize(parsed: Parsed, model: string): (v: Option<Verdict>)
    ensures v.Some? ==> ValidVerdict(v.value)
  {
    if parsed.category.None? || parsed.category.value !in VALID_LABELS then None
    else if parsed.confidence.NotANumber? then None
    else
      var c := if parsed.confidence.Number? then parsed.confidence.value else 0.0;
      Some(Verdict(parsed.category.value, Clamp(c),
                   if parsed.reasoning.Some? then parsed.reasoning.value else "", model))
  }

  function Distance(x: real, y: real): real {
    if x < y then y - x else x - y
  }

  /** A confidence is moved to the nearest value in range, so one in range is kept. */
  lemma NormalizeClampsToNearest(parsed: Parsed, model: string, x: real, other: real)
    requires parsed.confidence == Number(x) && Normalize(parsed, model).Some? && 0.0 <= other <= 1.0
    ensures var c := Normalize(parsed, model).value.confidence;
            Distance(c, x) <= Distance(other, x) && (0.0 <= x <= 1.0 ==> c == x)
  {
  }

  /** Exactly the objects with a known label and a numeric (or absent) confidence
      are accepted, with their own label and reasoning under the model's name; an
      absent confidence is 0. */
  lemma NormalizeAccepts(parsed: Parsed, model: string)
    ensures Normalize(parsed, model).Some? <==>
              parsed.category.Some? && parsed.category.value in VALID_LABELS && !parsed.confidence.NotANumber?
    ensures VALID_LABELS == {"vandalism", "substantive", "trivia", "unclear"}
    ensures Normalize(parsed, model).Some? ==>
              var v := Normalize(parsed, model).value;
              parsed.category == Some(v.category) && v.model == model &&
              (parsed.confidence.Missing? ==> v.confidence == 0.0) &&
              v.reasoning == (if parsed.reasoning.Some? then parsed.reasoning.value else "")
  {
  }

  function Judge(r: ModelReply, model: string): Judgement
    requires !Transient(r)
  {
    match r
    case Response(stop, parsed) =>
      if stop == Refusal || stop == MaxTokens || parsed.None? then Unusable
      else
        var v := Normalize(parsed.value, model);
        if v.Some? then Usable(v.value) else Unusable
    case OtherTypeError(error) => Raised(error)
    case KeyMissing(error) => Misconfigured(error)
    case StatusError(_, error) => Misconfigured(error)
  }

  /** The taxonomy of replies. Worth another try: rate limits, lost connections,
      the statuses 408, 409 and 500 and up, and API errors without a status. Of the
      rest, a missing key and any other status are the configuration's fault, another
      type error is a bug, and a refused, truncated or unreadable response is
      unusable, like one that does not normalize. */
  lemma ReplyTaxonomy(r: ModelReply, model: string)
    ensures Transient(r) <==>
              r.RateLimited? || r.ConnectionFailed? || r.OtherApiError? ||
              (r.StatusError? && (r.code == 408 || r.code == 409 || r.code >= 500))
    ensures r.KeyMissing? || (r.StatusError? && !Transient(r)) ==> Judge(r, model) == Misconfigured(r.error)
    ensures r.OtherTypeError? ==> Judge(r, model) == Raised(r.error)
    ensures r.Response? && (r.stop == Refusal || r.stop == MaxTokens || r.parsed.None?) ==> Judge(r, model) == Unusable
    ensures r.Response? && r.stop != Refusal && r.stop != MaxTokens && r.parsed.Some? ==>
              Judge(r, model) ==
              match Normalize(r.parsed.value, model) { case Some(v) => Usable(v) case None => Unusable }
  {
  }

  // ----------------------------------------------- the reply-stream reading

  /** `i` is the place, among the first `k` replies from `start`, of the first one
      that is not transient, or `k` when there is none. */
  ghost predicate FirstDecisive(replies: nat -> ModelReply, start: nat, k: nat, i: nat) {
    i <= k && (forall n: nat | start <= n < start + i :: Transient(replies(n))) &&
    (i < k ==> !Transient(replies(start + i)))
  }

  /** The tries a budget of `maxCalls` allows. */
  function Tries(s: Settings): nat {
    if s.maxCalls < 0 then 0 else s.maxCalls
  }

  function Decisive(replies: nat -> ModelReply, start: nat, k: nat): (i: nat)
    ensures FirstDecisive(replies, start, k, i)
    decreases k
  {
    if k == 0 then 0
    else
      var i := Decisive(replies, start, k - 1);
      if i < k - 1 || !Transient(replies(start + i)) then i else k
  }

  lemma DecisiveIsUnique(replies: nat -> ModelReply, start: nat, k: nat, i: nat)
    requires FirstDecisive(replies, start, k, i)
    ensures i == Decisive(replies, start, k)
  {
    var j := Decisive(replies, start, k);
    assert i < j ==> start <= start + i < start + j;
    assert j < i ==> start <= start + j < start + i;
  }

  /** One attempt, read off the stream from `start`. */
  function Attempted(s: Settings, replies: nat -> ModelReply, start: nat): Judgement {
    var i := Decisive(replies, start, Tries(s));
    if i < Tries(s) then Judge(replies(start + i), s.model) else OutOfRetries
  }

  function CallsMade(s: Settings, replies: nat -> ModelReply, start: nat): (n: nat)
    ensures n <= Tries(s)
  {
    var i := Decisive(replies, start, Tries(s));
    if i < Tries(s) then i + 1 else i
  }

  /** The backoff of `n` sleeps: base * (2^n - 1). */
  function BackoffOf(s: Settings, n: nat): real {
    s.backoffBase * (Pow2(n) - 1) as real
  }

  lemma BackoffGrows(s: Settings, n: nat)
    ensures BackoffOf(s, n + 1) == BackoffOf(s, n) + s.backoffBase * Pow2(n) as real
  {
    var p := Pow2(n);
    assert (Pow2(n + 1) - 1) as real == (p - 1) as real + p as real;
  }

  lemma {:induction false} Pow2Monotone(a: nat, b: nat)
    requires a <= b
    ensures Pow2(a) <= Pow2(b)
    decreases b
  {
    if a < b {
      Pow2Monotone(a, b - 1);
    }
  }

  lemma BackoffMonotone(s: Settings, a: nat, b: nat)
    requires a <= b && s.backoffBase >= 0.0
    ensures 0.0 <= BackoffOf(s, a) <= BackoffOf(s, b)
  {
    Pow2Monotone(a, b);
    var x, y := (Pow2(a) - 1) as real, (Pow2(b) - 1) as real;
    assert 0.0 <= x <= y;
    assert s.backoffBase * x <= s.backoffBase * y;
  }

  /** No sleep follows the last try. */
  function SleepsMade(s: Settings, replies: nat -> ModelReply, start: nat): nat {
    var i := Decisive(replies, start, Tries(s));
    if i < Tries(s) || i == 0 then i else i - 1
  }

  /** What those figures say when the reply at `i` is the first within the budget
      that is not transient: it is judged, after i + 1 calls and base * (2^i - 1) of
      backoff. */
  lemma DecisiveReplyIsJudged(s: Settings, replies: nat -> ModelReply, start: nat, i: nat)
    requires i < s.maxCalls && !Transient(replies(start + i))
    requires forall n: nat | start <= n < start + i :: Transient(replies(n))
    ensures Attempted(s, replies, start) == Judge(replies(start + i), s.model)
    ensures CallsMade(s, replies, start) == i + 1
    ensures BackoffOf(s, SleepsMade(s, replies, start)) == s.backoffBase * (Pow2(i) - 1) as real
  {
    DecisiveIsUnique(replies, start, Tries(s), i);
  }

  /** And when every reply within the budget is transient: K calls, K - 1 sleeps. */
  lemma TransientRepliesExhaust(s: Settings, replies: nat -> ModelReply, start: nat)
    requires s.maxCalls >= 1
    requires forall n: nat | start <= n < start + s.maxCalls :: Transient(replies(n))
    ensures Attempted(s, replies, start) == OutOfRetries
    ensures CallsMade(s, replies, start) == s.maxCalls
    ensures BackoffOf(s, SleepsMade(s, replies, start)) == s.backoffBase * (Pow2(s.maxCalls - 1) - 1) as real
  {
    DecisiveIsUnique(replies, start, Tries(s), s.maxCalls);
  }

  // ------------------------------------------------------------------- loops

  datatype CallResult = Returned(stop: StopReason, parsed: Option<Parsed>) | Failed(judgement: Judgement)

  /** `call_model`: act on the first reply that is not transient, or give up after
      the last try. */
  method CallModel(s: Settings, replies: nat -> ModelReply, start: nat)
    returns (r: CallResult, calls: nat, slept: real)
    ensures calls == CallsMade(s, replies, start)
    ensures slept == BackoffOf(s, SleepsMade(s, replies, start))
    ensures r.Failed? ==> r.judgement == Attempted(s, replies, start)
    ensures r.Returned? ==> Decisive(replies, start, Tries(s)) < Tries(s) && calls > 0 &&
                            replies(start + calls - 1) == Response(r.stop, r.parsed)
    ensures r.Failed? && Decisive(replies, start, Tries(s)) < Tries(s) ==>
              calls > 0 && !replies(start + calls - 1).Response?
  {
    var attempt := 0;
    calls, slept := 0, 0.0;
    while attempt < s.maxCalls
      invariant 0 <= attempt <= Tries(s) && calls == attempt
      invariant forall n: nat | start <= n < start + attempt :: Transient(replies(n))
      invariant slept == BackoffOf(s, if attempt < Tries(s) || attempt == 0 then attempt else attempt - 1)
    {
      var reply := replies(start + attempt);
      calls := calls + 1;
      if !Transient(reply) {
        DecisiveIsUnique(replies, start, Tries(s), attempt);
        match reply {
          case Response(stop, parsed) => return Returned(stop, parsed), calls, slept;
          case _ => return Failed(Judge(reply, s.model)), calls, slept;
        }
      }
      if attempt < s.maxCalls - 1 {
        BackoffGrows(s, attempt);
        slept := slept + s.backoffBase * Pow2(attempt) as real;
      }
      attempt := attempt + 1;
    }
    DecisiveIsUnique(replies, start, Tries(s), attempt);
    r := Failed(OutOfRetries);
  }

  /** `_attempt`: call, parse, normalize. */
  method Attempt(s: Settings, replies: nat -> ModelReply, start: nat)
    returns (j: Judgement, calls: nat, slept: real)
    ensures j == Attempted(s, replies, start)
    ensures calls == CallsMade(s, replies, start)
    ensures slept == BackoffOf(s, SleepsMade(s, replies, start))
  {
    var r;
    r, calls, slept := CallModel(s, replies, start);
    match r
    case Failed(judgement) => j := judgement;
    case Returned(stop, parsed) =>
      if stop == Refusal || stop == MaxTokens || parsed.None? {
        j := Unusable;
      } else {
        var v := Normalize(parsed.value, s.model);
        j := if v.Some? then Usable(v.value) else Unusable;
      }
  }

  /** What a classify pass hands to its caller: a reply to route, or an error that
      crashes the process. */
  datatype PassResult = Reported(reply: Reply) | Crashed(error: string)

  function Report(j: Judgement): PassResult {
    match j
    case Usable(v) => Reported(Answer(v))
    case Unusable => Reported(Fails(Unparseable, "model output unusable"))
    case OutOfRetries => Reported(Fails(Unavailable, "retries exhausted"))
    case Misconfigured(_) => Reported(ConfigError)
    case Raised(error) => Crashed(error)
  }

  /** What a pass comes to, case by case: a first verdict that is sure enough stands;
      an unsure one gives way to a usable second, stands when the second is unusable
      or exhausted, and a misconfiguration or a bug is never swallowed; without a
      first verdict there is no second attempt to look at. */
  ghost predicate PassTaxonomy(threshold: real, first: Judgement, second: Judgement, out: PassResult) {
    match first
    case Usable(v) =>
      if v.confidence >= threshold then out == Reported(Answer(v))
      else (match second
            case Usable(better) => out == Reported(Answer(better))
            case Unusable => out == Reported(Answer(v))
            case OutOfRetries => out == Reported(Answer(v))
            case Misconfigured(_) => out == Reported(ConfigError)
            case Raised(error) => out == Crashed(error))
    case Unusable => out.Reported? && out.reply.Fails? && out.reply.kind == Unparseable
    case OutOfRetries => out.Reported? && out.reply.Fails? && out.reply.kind == Unavailable
    case Misconfigured(_) => out == Reported(ConfigError)
    case Raised(error) => out == Crashed(error)
  }

  predicate Unsure(s: Settings, j: Judgement) {
    j.Usable? && j.verdict.confidence < s.threshold
  }

  /** A verdict is the normalized form of a reply that was received. */
  ghost predicate Received(s: Settings, replies: nat -> ModelReply, calls: nat, v: Verdict) {
    exists k: nat :: k < calls && replies(k).Response? && replies(k).parsed.Some? &&
                     Normalize(replies(k).parsed.value, s.model) == Some(v)
  }

  lemma UsableWasReceived(s: Settings, replies: nat -> ModelReply, start: nat, calls: nat)
    requires Attempted(s, replies, start).Usable? && start + CallsMade(s, replies, start) <= calls
    ensures Received(s, replies, calls, Attempted(s, replies, start).verdict)
  {
    var k := start + Decisive(replies, start, Tries(s));
    assert replies(k).Response? && replies(k).parsed.Some?;
  }

  /** A pass read off the stream: the first attempt's judgement, or the second's
      when the first was unsure and the second is usable or must not be swallowed. */
  function PassOf(s: Settings, replies: nat -> ModelReply): PassResult {
    var first := Attempted(s, replies, 0);
    var second := Attempted(s, replies, CallsMade(s, replies, 0));
    if Unsure(s, first) && !second.Unusable? && !second.OutOfRetries? then Report(second) else Report(first)
  }

  /** `classify`: a first attempt, and a second one for an unsure verdict that
      replaces the first only if it is usable. An unusable or unavailable second
      attempt is no failure; a misconfigured one is. */
  method Classify(s: Settings, replies: nat -> ModelReply) returns (out: PassResult, calls: nat, slept: real)
    requires s.backoffBase >= 0.0
    ensures out == PassOf(s, replies)
    ensures PassTaxonomy(s.threshold, Attempted(s, replies, 0), Attempted(s, replies, CallsMade(s, replies, 0)), out)
    ensures var n := CallsMade(s, replies, 0);
            var first := Attempted(s, replies, 0);
            var again := first.Usable? && first.verdict.confidence < s.threshold;
            calls == n + (if again then CallsMade(s, replies, n) else 0) &&
            slept == BackoffOf(s, SleepsMade(s, replies, 0)) +
                     (if again then BackoffOf(s, SleepsMade(s, replies, n)) else 0.0)
    ensures out.Reported? && out.reply.Answer? ==>
              ValidVerdict(out.reply.verdict) && Received(s, replies, calls, out.reply.verdict)
    ensures calls <= 2 * Tries(s)
    ensures Tries(s) >= 1 ==> 0.0 <= slept <= 2.0 * BackoffOf(s, Tries(s) - 1)
  {
    var first, second, more, again;
    first, calls, slept := Attempt(s, replies, 0);
    SleepIsBounded(s, replies, 0);
    SleepIsBounded(s, replies, calls);
    out := Report(first);
    if first.Usable? {
      UsableWasReceived(s, replies, 0, calls);
    }
    if first.Usable? && first.verdict.confidence < s.threshold {
      ghost var n := calls;
      second, more, again := Attempt(s, replies, calls);
      calls, slept := calls + more, slept + again;
      UsableWasReceived(s, replies, 0, calls);
      if second.Usable? {
        UsableWasReceived(s, replies, n, calls);
      }
      if !second.Unusable? && !second.OutOfRetries? {
        out := Report(second);
      }
    }
  }

  /** The second pass is best effort: once the first attempt is usable, only a
      misconfiguration or an unknown error can fail the pass; so an exhausted second
      pass counts as a success. */
  lemma SecondPassIsBestEffort(s: Settings, replies: nat -> ModelReply)
    requires Attempted(s, replies, 0).Usable?
    ensures var out := PassOf(s, replies);
            var second := Attempted(s, replies, CallsMade(s, replies, 0));
            (out.Reported? && out.reply.Answer?) || second.Misconfigured? || second.Raised?
    ensures Attempted(s, replies, CallsMade(s, replies, 0)).OutOfRetries? ==>
              PassOf(s, replies) == Reported(Answer(Attempted(s, replies, 0).verdict))
  {
  }

  lemma SleepIsBounded(s: Settings, replies: nat -> ModelReply, start: nat)
    requires s.backoffBase >= 0.0
    ensures Tries(s) >= 1 ==> 0.0 <= BackoffOf(s, SleepsMade(s, replies, start)) <= BackoffOf(s, Tries(s) - 1)
  {
    if Tries(s) >= 1 {
      BackoffMonotone(s, SleepsMade(s, replies, start), Tries(s) - 1);
    }
  }
}
