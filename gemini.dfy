/** The calls to the Gemini model and what each backend makes of the reply:
    the bounded retry loop of the enhanced `analyze_audio_with_gemini` with
    its fallback records, the enhanced `transcribe_segment_with_gemini`, and
    the single attempt of the simple `analyze_audio_with_gemini`.

    A model call is an abstract outcome: it raises (any exception of the SDK,
    including `init_gemini` refusing a missing key), it returns no parts
    (with the first candidate's finish reason, if there is a candidate), or it
    returns text. `json.loads` is an abstract partial parser. */
module ModelClient {
  import opened Text
  import opened PyJson

  datatype Reply =
    | Raised(message: string)
    | NoParts(finishReason: Option<int>)
    | Answer(text: string)

  /** The two prompts of the enhanced analysis: the full analysis prompt and
      the simplified one sent after a safety block. Their wording is opaque. */
  datatype Prompt = FullPrompt | SimplifiedPrompt

  /** The outcome of an analysis: the dict it returns, or the HTTP status of
      the exception that escapes it. */
  datatype Analysis = Returned(value: Json) | Unhandled(status: int)

  /** `FinishReason.SAFETY`. */
  const Safety: int := 2
  /** `max_retries` of the enhanced analysis. */
  const MaxRetries: nat := 3

  /** `response.text.strip()` followed by the fence stripping. */
  function Clean(t: string): string {
    StripFence(Strip(t))
  }

  /** The reply clean-up as the source writes it, reassigning `text`. */
  method CleanReply(t: string) returns (text: string)
    ensures text == Clean(t)
  {
    text := Strip(t);
    if StartsWith(text, JsonFence) {
      text := text[7..];
    }
    if EndsWith(text, Fence) {
      text := text[..|text| - 3];
    }
  }

  /** `get_fallback_response()`: the record returned when the model refuses
      to answer. */
  const SafetyFallback: Json := JObj(map[
    "segments" := JArr([JObj(map[
      "start_time" := JFloat(0.0),
      "end_time" := JFloat(10.0),
      "speaker_id" := JStr("Speaker_1"),
      "text" := JStr("[Content could not be analyzed due to safety filters]"),
      "language" := JStr("unknown"),
      "gender" := JStr("unknown"),
      "emotion" := JStr("neutral")])]),
    "summary_uzbek" := JStr("Audio tahlili xavfsizlik filtrlari tufayli bajarilmadi. Iltimos, audio faylni tekshiring va qayta urinib ko'ring."),
    "languages_detected" := JArr([JStr("unknown")]),
    "total_speakers" := JInt(1),
    "emotions_detected" := JArr([JStr("neutral")]),
    "named_entities" := JArr([])])

  /** The one-segment record returned after the last failed attempt; `text`
      is both the segment's text and the summary. */
  function ErrorRecord(text: string): Json {
    JObj(map[
      "segments" := JArr([JObj(map[
        "speaker_id" := JStr("Speaker 1"),
        "start_time" := JInt(0),
        "end_time" := JInt(1),
        "text" := JStr(text),
        "language" := JStr("Uzbek"),
        "gender" := JStr("Unknown"),
        "emotion" := JStr("Neutral"),
        "confidence" := JFloat(0.0)])]),
      "speakers" := JArr([]),
      "summary_uzbek" := JStr(text),
      "total_duration" := JInt(0),
      "languages_detected" := JArr([]),
      "dominant_emotion" := JStr("Neutral")])
  }

  /** After three replies that could not be parsed. */
  const ParseFallback: Json := ErrorRecord("Audio tahlil qilishda xatolik yuz berdi")
  /** After three calls that raised. */
  const TransportFallback: Json := ErrorRecord("Audio tahlilida xatolik")

  /** How one pass of the loop ends: the function returns, or the loop runs
      again with a new `retry_count`. */
  datatype Step = Done(result: Analysis) | Again(retry: nat)

  /** A failed attempt (a raise or an unparseable reply): `retry_count` goes
      up; on reaching `max_retries` the attempt's fallback is returned,
      otherwise the loop runs again. */
  function AfterFailure(retry: nat, fallback: Json): (s: Step)
    ensures s.Again? ==> s.retry == retry + 1 < MaxRetries
    ensures s.Done? ==> retry + 1 >= MaxRetries && s.result == Returned(fallback)
  {
    if retry + 1 >= MaxRetries then Done(Returned(fallback)) else Again(retry + 1)
  }

  /** One pass of the enhanced analysis loop with `retry_count == retry`.
      `gen(n, p)` is the reply to the call made with prompt `p` while
      `retry_count == n` (each pass makes at most one call per prompt). A
      pass either returns a dict or raises `retry_count`, by one or (a safety
      block followed by a failed retry) by two. */
  function AttemptStep(gen: (nat, Prompt) -> Reply, parse: string -> Option<Json>, retry: nat): (s: Step)
    requires retry < MaxRetries
    ensures s.Done? ==> s.result.Returned?
    ensures s.Again? ==> retry < s.retry <= retry + 2 && s.retry < MaxRetries
  {
    match gen(retry, FullPrompt)
    case Raised(_) => AfterFailure(retry, TransportFallback)
    case Answer(t) =>
      (match parse(Clean(t))
       case Some(j) => Done(Returned(j))
       case None => AfterFailure(retry, ParseFallback))
    case NoParts(reason) =>
      if reason.Some? && reason.value != 0 && reason.value == Safety && retry + 1 < MaxRetries then
        match gen(retry + 1, SimplifiedPrompt)
        case Raised(_) => AfterFailure(retry + 1, TransportFallback)
        case Answer(t) =>
          (match parse(Clean(t))
           case Some(j) => Done(Returned(j))
           case None => AfterFailure(retry + 1, ParseFallback))
        case NoParts(_) => Done(Returned(SafetyFallback))
      else Done(Returned(SafetyFallback))
  }

  /** The enhanced analysis from the top of the loop with `retry_count ==
      retry`; `Unhandled(500)` is the raise after the loop. */
  function AnalyzeFrom(gen: (nat, Prompt) -> Reply, parse: string -> Option<Json>, retry: nat): Analysis
    decreases MaxRetries - retry
  {
    if retry >= MaxRetries then Unhandled(500)
    else match AttemptStep(gen, parse, retry)
      case Done(a) => a
      case Again(next) => AnalyzeFrom(gen, parse, next)
  }

  /** One pass of the loop body, with its `try` and both handlers. */
  method Attempt(gen: (nat, Prompt) -> Reply, parse: string -> Option<Json>, retry: nat) returns (s: Step)
    requires retry < MaxRetries
    ensures s == AttemptStep(gen, parse, retry)
  {
    var retryCount := retry;
    var response := gen(retryCount, FullPrompt);
    if response.NoParts? {
      var reason := response.finishReason;
      if reason.Some? && reason.value != 0 && reason.value == Safety {
        retryCount := retryCount + 1;
        if retryCount < MaxRetries {
          response := gen(retryCount, SimplifiedPrompt);
          if response.NoParts? {
            return Done(Returned(SafetyFallback));
          }
        } else {
          return Done(Returned(SafetyFallback));
        }
      } else {
        return Done(Returned(SafetyFallback));
      }
    }
    if response.Raised? {
      // the generic `except Exception` handler
      retryCount := retryCount + 1;
      if retryCount >= MaxRetries {
        return Done(Returned(TransportFallback));
      }
      return Again(retryCount);
    }
    var text := CleanReply(response.text);
    var result := parse(text);
    if result.Some? {
      return Done(Returned(result.value));
    }
    // the `json.JSONDecodeError` handler
    retryCount := retryCount + 1;
    if retryCount >= MaxRetries {
      return Done(Returned(ParseFallback));
    }
    return Again(retryCount);
  }

  /** The enhanced `analyze_audio_with_gemini`: the `while retry_count <
      max_retries` loop, then the raise after it. */
  method AnalyzeAudio(gen: (nat, Prompt) -> Reply, parse: string -> Option<Json>) returns (r: Analysis)
    ensures r == AnalyzeFrom(gen, parse, 0)
  {
    var retryCount: nat := 0;
    while retryCount < MaxRetries
      invariant AnalyzeFrom(gen, parse, 0) == AnalyzeFrom(gen, parse, retryCount)
      decreases MaxRetries - retryCount
    {
      var step := Attempt(gen, parse, retryCount);
      if step.Done? {
        return step.result;
      }
      retryCount := step.retry;
    }
    return Unhandled(500);
  }

  /** The enhanced analysis never raises: every pass that does not return
      raises `retry_count`, and every path that reaches `max_retries`
      returns, so the raise after the loop is unreachable. */
  lemma {:induction false} AnalyzeReturns(gen: (nat, Prompt) -> Reply, parse: string -> Option<Json>, retry: nat)
    requires retry < MaxRetries
    ensures AnalyzeFrom(gen, parse, retry).Returned?
    decreases MaxRetries - retry
  {
    match AttemptStep(gen, parse, retry)
    case Done(_) =>
    case Again(next) => AnalyzeReturns(gen, parse, next);
  }

  /** The analysis makes at most three calls: only the replies to calls made
      while `retry_count < 3` decide the outcome. */
  lemma {:induction false} AnalyzeReadsThreeCalls(gen: (nat, Prompt) -> Reply, gen': (nat, Prompt) -> Reply,
                                                  parse: string -> Option<Json>, retry: nat)
    requires forall n: nat, p: Prompt :: n < MaxRetries ==> gen(n, p) == gen'(n, p)
    ensures AnalyzeFrom(gen, parse, retry) == AnalyzeFrom(gen', parse, retry)
    decreases MaxRetries - retry
  {
    if retry < MaxRetries {
      assert AttemptStep(gen, parse, retry) == AttemptStep(gen', parse, retry);
      match AttemptStep(gen, parse, retry)
      case Done(_) =>
      case Again(next) => AnalyzeReadsThreeCalls(gen, gen', parse, next);
    }
  }

  /** Whatever the analysis returns is one of the three fallback records or
      the parse of the cleaned text of a reply it received. */
  lemma {:induction false} AnalyzeResultOrigin(gen: (nat, Prompt) -> Reply, parse: string -> Option<Json>, retry: nat)
    requires retry < MaxRetries
    ensures AnalyzeFrom(gen, parse, retry).Returned?
    ensures var j := AnalyzeFrom(gen, parse, retry).value;
      || j == SafetyFallback || j == ParseFallback || j == TransportFallback
      || exists n: nat, p: Prompt :: retry <= n < MaxRetries && gen(n, p).Answer? && parse(Clean(gen(n, p).text)) == Some(j)
    decreases MaxRetries - retry
  {
    AnalyzeReturns(gen, parse, retry);
    match AttemptStep(gen, parse, retry)
    case Done(_) =>
    case Again(next) => AnalyzeResultOrigin(gen, parse, next);
  }

  /** A block that is not a safety block, or a reply without candidates or
      without a finish reason, yields the safety fallback at once. */
  lemma NonSafetyBlockFallsBack(gen: (nat, Prompt) -> Reply, parse: string -> Option<Json>, retry: nat)
    requires retry < MaxRetries && gen(retry, FullPrompt).NoParts?
    requires gen(retry, FullPrompt).finishReason != Some(Safety)
    ensures AnalyzeFrom(gen, parse, retry) == Returned(SafetyFallback)
  {
  }

  /** After a safety block the simplified prompt is tried once: its parsed
      answer is returned, and a second block yields the safety fallback. */
  lemma SafetyRetry(gen: (nat, Prompt) -> Reply, parse: string -> Option<Json>)
    requires gen(0, FullPrompt) == NoParts(Some(Safety))
    ensures gen(1, SimplifiedPrompt).NoParts? ==> AnalyzeFrom(gen, parse, 0) == Returned(SafetyFallback)
    ensures gen(1, SimplifiedPrompt).Answer? && parse(Clean(gen(1, SimplifiedPrompt).text)).Some? ==>
              AnalyzeFrom(gen, parse, 0) == Returned(parse(Clean(gen(1, SimplifiedPrompt).text)).value)
  {
  }

  /** A safety retry whose answer cannot be parsed counts as a second failed
      attempt: the loop goes back to the full prompt with `retry_count == 2`,
      its last attempt. */
  lemma UnparseableSafetyRetryRestarts(gen: (nat, Prompt) -> Reply, parse: string -> Option<Json>)
    requires gen(0, FullPrompt) == NoParts(Some(Safety))
    requires gen(1, SimplifiedPrompt).Answer? && parse(Clean(gen(1, SimplifiedPrompt).text)).None?
    ensures AnalyzeFrom(gen, parse, 0) == AnalyzeFrom(gen, parse, 2)
    ensures gen(2, FullPrompt).NoParts? ==> AnalyzeFrom(gen, parse, 0) == Returned(SafetyFallback)
  {
  }

  /** Three calls that raise yield the transport fallback; three answers that
      cannot be parsed yield the parse fallback. */
  lemma ThreeFailures(gen: (nat, Prompt) -> Reply, parse: string -> Option<Json>)
    ensures (forall n: nat :: n < MaxRetries ==> gen(n, FullPrompt).Raised?) ==>
              AnalyzeFrom(gen, parse, 0) == Returned(TransportFallback)
    ensures (forall n: nat :: n < MaxRetries ==> gen(n, FullPrompt).Answer? && parse(Clean(gen(n, FullPrompt).text)).None?) ==>
              AnalyzeFrom(gen, parse, 0) == Returned(ParseFallback)
  {
    if forall n: nat :: n < MaxRetries ==> gen(n, FullPrompt).Raised? {
      assert gen(0, FullPrompt).Raised? && gen(1, FullPrompt).Raised? && gen(2, FullPrompt).Raised?;
    }
    if forall n: nat :: n < MaxRetries ==> gen(n, FullPrompt).Answer? && parse(Clean(gen(n, FullPrompt).text)).None? {
      assert gen(0, FullPrompt).Answer? && gen(1, FullPrompt).Answer? && gen(2, FullPrompt).Answer?;
    }
  }

  /** The shape of a last-attempt record: one segment with confidence 0.0
      carrying the message, which is also the summary; no speakers, no
      detected languages and a total duration of 0. */
  lemma ErrorRecordShape(text: string)
    ensures var j := ErrorRecord(text);
      && j.fields["speakers"] == JArr([])
      && j.fields["languages_detected"] == JArr([])
      && j.fields["total_duration"] == JInt(0)
      && j.fields["summary_uzbek"] == JStr(text)
      && |j.fields["segments"].items| == 1
      && j.fields["segments"].items[0].fields["confidence"] == JFloat(0.0)
      && j.fields["segments"].items[0].fields["text"] == JStr(text)
  {
  }

  /** The safety record has one segment and reports the language
      "unknown". */
  lemma SafetyRecord()
    ensures SafetyFallback.fields["languages_detected"] == JArr([JStr("unknown")])
    ensures |SafetyFallback.fields["segments"].items| == 1
  {
  }

  /** Both last-attempt records have that shape. */
  lemma FallbackRecords()
    ensures forall j | j == ParseFallback || j == TransportFallback ::
      && j.fields["speakers"] == JArr([])
      && j.fields["languages_detected"] == JArr([])
      && j.fields["total_duration"] == JInt(0)
      && |j.fields["segments"].items| == 1
      && j.fields["segments"].items[0].fields["confidence"] == JFloat(0.0)
  {
    ErrorRecordShape("Audio tahlil qilishda xatolik yuz berdi");
    ErrorRecordShape("Audio tahlilida xatolik");
  }

  // -----------------------------------------------------------------------
  // transcribe_segment_with_gemini
  // -----------------------------------------------------------------------

  /** The record returned when a segment cannot be transcribed. */
  function SegmentError(transcription: string): Json {
    JObj(map[
      "transcription" := JStr(transcription),
      "language" := JStr("Unknown"),
      "gender" := JStr("Unknown"),
      "emotion" := JStr("Neutral"),
      "confidence" := JFloat(0.0)])
  }

  /** A segment error record: it says "Unknown" language and "Neutral"
      emotion with confidence 0.0. */
  predicate IsSegmentError(j: Json) {
    && j.JObj?
    && "language" in j.fields && j.fields["language"] == JStr("Unknown")
    && "emotion" in j.fields && j.fields["emotion"] == JStr("Neutral")
    && "confidence" in j.fields && j.fields["confidence"] == JFloat(0.0)
  }

  /** The enhanced `transcribe_segment_with_gemini`: one call, never raises. */
  function TranscribeSegment(reply: Reply, parse: string -> Option<Json>): (r: Json)
    ensures reply.Answer? && parse(Clean(reply.text)).Some? ==> r == parse(Clean(reply.text)).value
    ensures !(reply.Answer? && parse(Clean(reply.text)).Some?) ==> IsSegmentError(r)
    ensures reply.NoParts? ==> r.JObj? && "transcription" in r.fields && r.fields["transcription"] == JStr("[Could not transcribe]")
    ensures reply.Answer? && parse(Clean(reply.text)).None? ==>
              r.JObj? && "transcription" in r.fields && r.fields["transcription"] == JStr("[Transcription error]")
    ensures reply.Raised? ==> r.JObj? && "transcription" in r.fields && r.fields["transcription"] == JStr("[Error: " + reply.message + "]")
  {
    match reply
    case NoParts(_) => SegmentError("[Could not transcribe]")
    case Raised(message) => SegmentError("[Error: " + message + "]")
    case Answer(t) =>
      match parse(Clean(t))
      case Some(j) => j
      case None => SegmentError("[Transcription error]")
  }

  // -----------------------------------------------------------------------
  // analyze_audio_with_gemini of the simple backend
  // -----------------------------------------------------------------------

  /** The fixed record of the simple backend for a reply it cannot parse. */
  const SimpleParseDefault: Json := JObj(map[
    "transcription" := JArr([JObj(map[
      "text" := JStr("Audio processed but could not parse response"),
      "start_time" := JInt(0),
      "end_time" := JInt(1)])]),
    "language" := JStr("unknown"),
    "speakers" := JArr([]),
    "summary" := JStr("Analysis failed"),
    "duration" := JInt(0)])

  /** The simple `analyze_audio_with_gemini`: one call with no retry. Reading
      `response.text` of a reply without parts raises, so a blocked reply
      fails like a raising call, with 500. */
  function SimpleAnalyze(reply: Reply, parse: string -> Option<Json>): (r: Analysis)
    ensures r.Unhandled? <==> !reply.Answer?
    ensures r.Unhandled? ==> r.status == 500
    ensures reply.Answer? ==> r.value == parse(Clean(reply.text)).GetOr(SimpleParseDefault)
  {
    match reply
    case Answer(t) =>
      (match parse(Clean(t))
       case Some(j) => Returned(j)
       case None => Returned(SimpleParseDefault))
    case _ => Unhandled(500)
  }

  /** The parse-failure record carries one transcription entry, the language
      "unknown" and the summary "Analysis failed". */
  lemma SimpleParseDefaultShape()
    ensures |SimpleParseDefault.fields["transcription"].items| == 1
    ensures SimpleParseDefault.fields["language"] == JStr("unknown")
    ensures SimpleParseDefault.fields["summary"] == JStr("Analysis failed")
  {
  }
}
