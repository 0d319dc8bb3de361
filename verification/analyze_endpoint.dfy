/**
 * `POST /api/analyze/activities`: validate the request, build the prompt,
 * ask the language model, cut the fenced JSON block out of its reply, parse
 * it, and answer the client.
 *
 * The model call and `JSON.parse` are parameters: `generate` yields the
 * reply text, or `None` when the call (or reading its text) throws, and
 * `parseJson` yields the parsed value, or `None` when parsing throws.
 * `translations` is the locale table chosen for the request's language.
 */
module AnalyzeEndpoint {
  import opened Wrappers
  import opened JsValues
  import opened Activities
  import opened Prompt
  import opened Fence
  import opened Strings

  /**
   * The fields of the request body. A missing (or `null`, `false`, `0`, `""`)
   * `activities` field is `None`; a missing `lang` or
   * `special_considerations` is `None`.
   */
  datatype AnalyzeRequest = AnalyzeRequest(
    activities: Option<seq<RawActivity>>,
    lang: Option<string>,
    specialConsiderations: Option<string>
  )

  /** Why an analysis produced no result. */
  datatype AnalyzeError =
    | NoActivities      // rejected before any model call
    | ModelCallFailed   // the call threw, or its text could not be read
    | NoJsonBlock       // the reply has no non-empty ```json fenced block
    | InvalidJson       // the block is not valid JSON

  /** The reply the client receives: an HTTP status and a JSON body. */
  datatype HttpResponse = HttpResponse(status: nat, body: JsonValue)

  const DefaultLang: string := "en"
  const NoActivitiesMessage: string := "No activities provided for analysis."
  const AnalysisFailedMessage: string := "Failed to analyze activities."

  /** `!activities || activities.length === 0`. */
  predicate MissingActivities(req: AnalyzeRequest) {
    req.activities.None? || req.activities.value == []
  }

  /** The prompt for a request that has activities, with the parameter defaults applied. */
  function RequestPrompt(acts: seq<RawActivity>, req: AnalyzeRequest, translations: map<string, string>,
                         stringify: seq<ActivitySummary> -> string): string
  {
    GenerateAnalysisPrompt(acts, req.lang.GetOr(DefaultLang), req.specialConsiderations.GetOr(""),
                           translations, stringify)
  }

  /**
   * What becomes of the model's reply: the parsed JSON block, or why there
   * is none.
   */
  function InterpretReply(reply: Option<string>, parseJson: string -> Option<JsonValue>): (r: Result<JsonValue, AnalyzeError>)
    ensures r != Failure(NoActivities)
    ensures r == Failure(ModelCallFailed) <==> reply.None?
    ensures r == Failure(NoJsonBlock) <==> reply.Some? && ExtractJsonBlock(reply.value).None?
    ensures r == Failure(InvalidJson) <==>
              reply.Some? && ExtractJsonBlock(reply.value).Some? && parseJson(ExtractJsonBlock(reply.value).value).None?
    ensures r.Success? <==>
              reply.Some? && ExtractJsonBlock(reply.value).Some? && parseJson(ExtractJsonBlock(reply.value).value).Some?
    ensures r.Success? ==> parseJson(ExtractJsonBlock(reply.value).value) == Some(r.value)
  {
    if reply.None? then Failure(ModelCallFailed)
    else
      var block := ExtractJsonBlock(reply.value);
      if block.None? then Failure(NoJsonBlock)
      else
        var parsed := parseJson(block.value);
        if parsed.None? then Failure(InvalidJson)
        else Success(parsed.value)
  }

  /**
   * The analysis of a request: refused before any model call when there are
   * no activities, otherwise the interpretation of the reply to the prompt.
   */
  function Analyze(req: AnalyzeRequest, translations: map<string, string>,
                   stringify: seq<ActivitySummary> -> string,
                   generate: string -> Option<string>,
                   parseJson: string -> Option<JsonValue>): (r: Result<JsonValue, AnalyzeError>)
    ensures MissingActivities(req) <==> r == Failure(NoActivities)
  {
    if MissingActivities(req) then Failure(NoActivities)
    else InterpretReply(generate(RequestPrompt(req.activities.value, req, translations, stringify)), parseJson)
  }

  /** `{ error: message }`. */
  function ErrorBody(message: string): JsonValue {
    JObject(map["error" := JString(message)])
  }

  /** The HTTP reply: the parsed analysis as is, 400 for a missing input, 500 for every other failure. */
  function Respond(r: Result<JsonValue, AnalyzeError>): (response: HttpResponse)
    ensures response.status == 200 <==> r.Success?
    ensures r.Success? ==> response.body == r.value
    ensures response.status == 400 <==> r == Failure(NoActivities)
    ensures response.status == 400 ==> response.body == ErrorBody(NoActivitiesMessage)
    ensures r.Failure? && r.error != NoActivities ==> response == HttpResponse(500, ErrorBody(AnalysisFailedMessage))
  {
    match r
    case Success(analysis) => HttpResponse(200, analysis)
    case Failure(NoActivities) => HttpResponse(400, ErrorBody(NoActivitiesMessage))
    case Failure(_) => HttpResponse(500, ErrorBody(AnalysisFailedMessage))
  }

  /** The endpoint: the response to a request. */
  function HandleAnalyze(req: AnalyzeRequest, translations: map<string, string>,
                         stringify: seq<ActivitySummary> -> string,
                         generate: string -> Option<string>,
                         parseJson: string -> Option<JsonValue>): HttpResponse
  {
    Respond(Analyze(req, translations, stringify, generate, parseJson))
  }

  /** A request without activities is refused with 400 whatever the model would have said. */
  lemma MissingActivitiesRejected(req: AnalyzeRequest, translations: map<string, string>,
                                  stringify: seq<ActivitySummary> -> string,
                                  generate1: string -> Option<string>, parse1: string -> Option<JsonValue>,
                                  generate2: string -> Option<string>, parse2: string -> Option<JsonValue>)
    requires MissingActivities(req)
    ensures HandleAnalyze(req, translations, stringify, generate1, parse1)
            == HandleAnalyze(req, translations, stringify, generate2, parse2)
            == HttpResponse(400, ErrorBody(NoActivitiesMessage))
  {
  }

  /** A reply whose first ```json block holds `content` verbatim yields the parsed content. */
  lemma FencedReplyAccepted(prefix: string, content: string, suffix: string,
                            parseJson: string -> Option<JsonValue>, analysis: JsonValue)
    requires content != [] && !Contains(content, Closer) && !Contains(prefix, Opener)
    requires parseJson(content) == Some(analysis)
    ensures InterpretReply(Some(prefix + Opener + content + Closer + suffix), parseJson) == Success(analysis)
  {
    ExtractRoundTrip(prefix, content, suffix);
  }

  /** A reply that fences an empty block is a missing block, not an attempt to parse "". */
  lemma EmptyFenceRejected(prefix: string, suffix: string, parseJson: string -> Option<JsonValue>)
    requires !Contains(prefix, Opener)
    ensures InterpretReply(Some(prefix + Opener + Closer + suffix), parseJson) == Failure(NoJsonBlock)
  {
    EmptyFenceFails(prefix, suffix);
  }

  /**
   * End to end: when the model answers the request's prompt with a fenced
   * block holding `content`, the client receives 200 and the parsed content.
   */
  lemma FencedReplyAnswered(req: AnalyzeRequest, translations: map<string, string>,
                            stringify: seq<ActivitySummary> -> string,
                            generate: string -> Option<string>, parseJson: string -> Option<JsonValue>,
                            prefix: string, content: string, suffix: string, analysis: JsonValue)
    requires !MissingActivities(req)
    requires generate(RequestPrompt(req.activities.value, req, translations, stringify))
             == Some(prefix + Opener + content + Closer + suffix)
    requires content != [] && !Contains(content, Closer) && !Contains(prefix, Opener)
    requires parseJson(content) == Some(analysis)
    ensures HandleAnalyze(req, translations, stringify, generate, parseJson) == HttpResponse(200, analysis)
  {
    FencedReplyAccepted(prefix, content, suffix, parseJson, analysis);
  }

  /**
   * Corollary of `Respond` and `Analyze`: every failure inside the handler's
   * try block (model call, reply text, fence, parse) reaches the client as the
   * same 500 reply, so the client cannot tell them apart.
   */
  lemma ModelFailuresLookAlike(req: AnalyzeRequest, translations: map<string, string>,
                               stringify: seq<ActivitySummary> -> string,
                               generate: string -> Option<string>, parseJson: string -> Option<JsonValue>)
    requires !MissingActivities(req)
    ensures Analyze(req, translations, stringify, generate, parseJson).Failure? ==>
              HandleAnalyze(req, translations, stringify, generate, parseJson)
              == HttpResponse(500, ErrorBody(AnalysisFailedMessage))
  {
  }
}
