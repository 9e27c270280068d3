/** The `analyze-hair` edge function: a chain of guards from the incoming
    request to a status and a body. The signed-in-user lookup, the body's JSON,
    the API key, the AI gateway and `JSON.parse` are oracles whose outcomes are
    part of the request facts; every exception they raise lands in one catch. */
module AnalyzeHair {

  import opened Common
  import opened Text
  import opened Records

  // ---------------------------------------------------------------- request facts

  /** What a `throw` carried: an `Error` with its message, or another value. */
  datatype Thrown = ErrorObject(message: string) | NonError

  /** The outcome of an awaited call: its value, or the exception it raised. */
  datatype Step<T> = Done(value: T) | Raised(thrown: Thrown)

  /** The reply of `auth.getUser()`: the user, if any, and whether it reported an error. */
  datatype UserLookup = UserLookup(user: Option<string>, failed: bool)

  /** The `photoUrls` member of the body: absent or falsy, some other non-array
      value, or an array of photos. */
  datatype PhotoUrlsField = Absent | NotArray | Items(photos: seq<PhotoRef>)

  /** The parsed JSON body; a falsy `previousScores` is `None`. */
  datatype Body = Body(photoUrls: PhotoUrlsField, previousScores: Option<PreviousScores>)

  /** The gateway's HTTP reply. `errorText` is the read of a failed reply's body;
      `toolArguments` is the read of a good reply's JSON down to
      `choices[0].message.tool_calls[0].function.arguments` (`None` where a link
      of that chain is missing); `parsed` is `JSON.parse` of those arguments. */
  datatype Gateway = Gateway(
    ok: bool,
    status: int,
    errorText: Step<string>,
    toolArguments: Step<Option<string>>,
    parsed: Step<AnalysisResult>)

  /** Everything the handler looks at, in the order it looks. */
  datatype Facts = Facts(
    httpMethod: string,
    authorization: Option<string>,
    lookup: Step<UserLookup>,
    body: Step<Body>,
    apiKey: Option<string>,
    gateway: Step<Gateway>)

  // ---------------------------------------------------------------- responses

  datatype ResponseBody = NullBody | ErrorBody(error: string) | ResultBody(result: AnalysisResult)

  /** Every response carries the CORS headers; `json` says whether it also
      declares a JSON content type. */
  datatype Response = Response(status: int, body: ResponseBody, json: bool)

  /** The chat request sent to the gateway. `context` is the comparison text
      appended to the system prompt, `images` the image parts' URLs. */
  datatype GatewayRequest = GatewayRequest(
    model: string, context: string, userText: string, images: seq<string>, tool: string)

  /** The response, and the gateway request if the handler got that far. */
  datatype Served = Served(response: Response, sent: Option<GatewayRequest>)

  const MODEL: string := "google/gemini-2.5-flash"
  const TOOL: string := "submit_hair_analysis"

  const UNAUTHORIZED: string := "Unauthorized"
  const NO_PHOTOS: string := "No photos provided"
  const NOT_CONFIGURED: string := "AI service not configured"
  const RATE_LIMITED: string := "Rate limit exceeded. Please try again in a moment."
  const NO_CREDITS: string := "AI credits exhausted. Please add credits to continue."
  const AI_FAILED: string := "AI analysis failed"
  const NO_STRUCTURE: string := "AI did not return structured results"
  const UNKNOWN_ERROR: string := "Unknown error"

  function Error(status: int, message: string): Response
  {
    Response(status, ErrorBody(message), true)
  }

  /** The message the catch block reports for a thrown value. */
  function ThrownMessage(t: Thrown): string
  {
    if t.ErrorObject? then t.message else UNKNOWN_ERROR
  }

  /** The catch block's reply. */
  function Caught(t: Thrown): (r: Response)
    ensures r.status == 500 && r.json && r.body.ErrorBody?
    ensures t.ErrorObject? ==> r.body.error == t.message
    ensures t.NonError? ==> r.body.error == UNKNOWN_ERROR
  {
    Error(500, ThrownMessage(t))
  }

  /** JavaScript truthiness of an optional string. */
  predicate Truthy(s: Option<string>)
  {
    s.Some? && s.value != ""
  }

  // ---------------------------------------------------------------- request construction

  /** One `image_url` part per photo, in photo order. */
  function ImageContent(photos: seq<PhotoRef>): (urls: seq<string>)
    ensures |urls| == |photos|
    ensures forall k :: 0 <= k < |photos| ==> urls[k] == photos[k].url
  {
    if photos == [] then [] else [photos[0].url] + ImageContent(photos[1..])
  }

  function Angles(photos: seq<PhotoRef>): (angles: seq<string>)
    ensures |angles| == |photos|
    ensures forall k :: 0 <= k < |photos| ==> angles[k] == photos[k].angle
  {
    if photos == [] then [] else [photos[0].angle] + Angles(photos[1..])
  }

  const USER_TEXT_HEAD: string := "Please analyze these scalp photos taken from different angles: "
  const USER_TEXT_TAIL: string := ". Provide your structured assessment."

  /** The text part of the user message: the photos' angles joined by ", ". */
  function UserText(photos: seq<PhotoRef>): string
  {
    USER_TEXT_HEAD + Join(Angles(photos), ", ") + USER_TEXT_TAIL
  }

  /** The user text names every photo's angle. */
  lemma UserTextNamesAngles(photos: seq<PhotoRef>, k: nat)
    requires k < |photos|
    ensures Contains(UserText(photos), photos[k].angle)
  {
    var joined := Join(Angles(photos), ", ");
    JoinContainsEach(Angles(photos), ", ", k);
    ContainsInfix(USER_TEXT_HEAD, joined, USER_TEXT_TAIL);
    ContainsTransitive(UserText(photos), joined, photos[k].angle);
  }

  /** A score as a template literal renders it; a null score renders as "null". */
  function ScoreText(v: Option<int>): (s: string)
    ensures s != []
  {
    if v.Some? then IntToString(v.value) else "null"
  }

  function ScoreField(name: string, v: Option<int>): string
  {
    name + ": " + ScoreText(v) + "/100"
  }

  const CONTEXT_HEAD: string := "\n\nPrevious analysis scores for comparison: "
  const CONTEXT_TAIL: string := ". Compare these to the current photos and note any changes."

  function ScoreList(p: PreviousScores): string
  {
    ScoreField("Overall", p.overall) + ", " + ScoreField("Density", p.density) + ", "
    + ScoreField("Hairline", p.hairline) + ", " + ScoreField("Crown", p.crown)
  }

  /** The comparison paragraph appended to the system prompt. */
  function ComparisonContext(prev: Option<PreviousScores>): string
  {
    if prev.Some? then CONTEXT_HEAD + ScoreList(prev.value) + CONTEXT_TAIL else ""
  }

  /** Each of four separated parts occurs in their concatenation. */
  lemma FourParts(a: string, b: string, c: string, d: string, sep: string, s: string)
    requires s == a + sep + b + sep + c + sep + d
    ensures Contains(s, a) && Contains(s, b) && Contains(s, c) && Contains(s, d)
  {
    var i := |a| + |sep|;
    var j := i + |b| + |sep|;
    var k := j + |c| + |sep|;
    assert s[..|a|] == a;
    assert s[i..i + |b|] == b;
    assert s[j..j + |c|] == c;
    assert s[k..] == d;
    ContainsAt(s, a, 0);
    ContainsAt(s, b, i);
    ContainsAt(s, c, j);
    ContainsAt(s, d, k);
  }

  lemma ListNamesScores(p: PreviousScores)
    ensures Contains(ScoreList(p), ScoreField("Overall", p.overall))
    ensures Contains(ScoreList(p), ScoreField("Density", p.density))
    ensures Contains(ScoreList(p), ScoreField("Hairline", p.hairline))
    ensures Contains(ScoreList(p), ScoreField("Crown", p.crown))
  {
    FourParts(ScoreField("Overall", p.overall), ScoreField("Density", p.density),
              ScoreField("Hairline", p.hairline), ScoreField("Crown", p.crown), ", ", ScoreList(p));
  }

  /** The comparison context is empty exactly when there are no previous
      scores, and otherwise spells out all four of them. */
  lemma ComparisonContextShape(prev: Option<PreviousScores>)
    ensures ComparisonContext(prev) != "" <==> prev.Some?
    ensures prev.Some? ==>
      && Contains(ComparisonContext(prev), ScoreField("Overall", prev.value.overall))
      && Contains(ComparisonContext(prev), ScoreField("Density", prev.value.density))
      && Contains(ComparisonContext(prev), ScoreField("Hairline", prev.value.hairline))
      && Contains(ComparisonContext(prev), ScoreField("Crown", prev.value.crown))
  {
    if prev.Some? {
      var p := prev.value;
      var list := ScoreList(p);
      ListNamesScores(p);
      ContainsInfix(CONTEXT_HEAD, list, CONTEXT_TAIL);
      ContainsTransitive(ComparisonContext(prev), list, ScoreField("Overall", p.overall));
      ContainsTransitive(ComparisonContext(prev), list, ScoreField("Density", p.density));
      ContainsTransitive(ComparisonContext(prev), list, ScoreField("Hairline", p.hairline));
      ContainsTransitive(ComparisonContext(prev), list, ScoreField("Crown", p.crown));
    }
  }

  /** A present score is rendered as its decimal text, which reads back as the score. */
  lemma ScoreTextRoundTrip(v: int)
    ensures ScoreText(Some(v)) == IntToString(v)
    ensures ParseInt(ScoreText(Some(v))) == Some(v)
  {
    ParseIntRoundTrip(v);
  }

  function BuildRequest(b: Body): GatewayRequest
    requires b.photoUrls.Items?
  {
    var photos := b.photoUrls.photos;
    GatewayRequest(MODEL, ComparisonContext(b.previousScores), UserText(photos), ImageContent(photos), TOOL)
  }

  // ---------------------------------------------------------------- the handler

  /** The gateway part of the handler, once the request is sent. */
  function AfterGateway(g: Step<Gateway>): Response
  {
    if g.Raised? then Caught(g.thrown)
    else
      var reply := g.value;
      if !reply.ok then
        if reply.status == 429 then Error(429, RATE_LIMITED)
        else if reply.status == 402 then Error(402, NO_CREDITS)
        else if reply.errorText.Raised? then Caught(reply.errorText.thrown)
        else Error(500, AI_FAILED)
      else if reply.toolArguments.Raised? then Caught(reply.toolArguments.thrown)
      else if !Truthy(reply.toolArguments.value) then Error(500, NO_STRUCTURE)
      else if reply.parsed.Raised? then Caught(reply.parsed.thrown)
      else Response(200, ResultBody(reply.parsed.value), true)
  }

  /** Whether the guards before the gateway call all pass. */
  predicate ReachesGateway(f: Facts)
  {
    && f.httpMethod != "OPTIONS"
    && Truthy(f.authorization)
    && f.lookup.Done? && !f.lookup.value.failed && f.lookup.value.user.Some?
    && f.body.Done? && f.body.value.photoUrls.Items? && |f.body.value.photoUrls.photos| > 0
    && Truthy(f.apiKey)
  }

  /** The handler. */
  function Serve(f: Facts): Served
  {
    if f.httpMethod == "OPTIONS" then Served(Response(200, NullBody, false), None)
    else if !Truthy(f.authorization) then Served(Error(401, UNAUTHORIZED), None)
    else if f.lookup.Raised? then Served(Caught(f.lookup.thrown), None)
    else if f.lookup.value.failed || f.lookup.value.user.None? then Served(Error(401, UNAUTHORIZED), None)
    else if f.body.Raised? then Served(Caught(f.body.thrown), None)
    else if !f.body.value.photoUrls.Items? || |f.body.value.photoUrls.photos| == 0 then
      Served(Error(400, NO_PHOTOS), None)
    else if !Truthy(f.apiKey) then Served(Error(500, NOT_CONFIGURED), None)
    else Served(AfterGateway(f.gateway), Some(BuildRequest(f.body.value)))
  }

  // ---------------------------------------------------------------- properties

  /** OPTIONS is answered with an empty body and CORS headers before any check. */
  lemma PreflightFirst(f: Facts)
    ensures f.httpMethod == "OPTIONS" <==> Serve(f).response.body.NullBody?
    ensures f.httpMethod == "OPTIONS" ==> Serve(f) == Served(Response(200, NullBody, false), None)
    ensures f.httpMethod != "OPTIONS" ==> Serve(f).response.json
  {
  }

  /** A 401 "Unauthorized" comes exactly from a missing header or a failed or
      empty user lookup. */
  lemma UnauthorizedExactly(f: Facts)
    ensures Serve(f).response.status == 401
      <==> f.httpMethod != "OPTIONS"
           && (!Truthy(f.authorization)
               || (f.lookup.Done? && (f.lookup.value.failed || f.lookup.value.user.None?)))
    ensures Serve(f).response.status == 401 ==> Serve(f).response.body == ErrorBody(UNAUTHORIZED)
  {
  }

  /** A 400 comes exactly from a signed-in request whose photo list is missing,
      not an array or empty, and the photo check comes before the key check. */
  lemma NoPhotosExactly(f: Facts)
    ensures Serve(f).response.status == 400
      <==> f.httpMethod != "OPTIONS" && Truthy(f.authorization)
           && f.lookup.Done? && !f.lookup.value.failed && f.lookup.value.user.Some?
           && f.body.Done? && (!f.body.value.photoUrls.Items? || |f.body.value.photoUrls.photos| == 0)
    ensures Serve(f).response.status == 400 ==> Serve(f).response.body == ErrorBody(NO_PHOTOS)
  {
  }

  /** A missing key is a 500 once the photos are known to be there; missing
      photos are reported first, whatever the key. */
  lemma MissingKey(f: Facts)
    requires f.httpMethod != "OPTIONS" && Truthy(f.authorization)
    requires f.lookup.Done? && !f.lookup.value.failed && f.lookup.value.user.Some? && f.body.Done?
    requires !Truthy(f.apiKey)
    ensures f.body.value.photoUrls.Items? && |f.body.value.photoUrls.photos| > 0
      ==> Serve(f) == Served(Error(500, NOT_CONFIGURED), None)
    ensures !(f.body.value.photoUrls.Items? && |f.body.value.photoUrls.photos| > 0)
      ==> Serve(f) == Served(Error(400, NO_PHOTOS), None)
  {
  }

  /** Whether an oracle before the gateway threw. */
  predicate CaughtBefore(f: Facts)
  {
    f.httpMethod != "OPTIONS" && Truthy(f.authorization)
    && (f.lookup.Raised?
        || (!f.lookup.value.failed && f.lookup.value.user.Some? && f.body.Raised?))
  }

  function CaughtMessage(f: Facts): string
    requires CaughtBefore(f)
  {
    ThrownMessage(if f.lookup.Raised? then f.lookup.thrown else f.body.thrown)
  }

  /** The gateway is called exactly when every guard passes; the request then
      carries one image per photo in order, a user text naming every angle and
      the comparison context of the previous scores. */
  lemma GatewayRequestShape(f: Facts)
    ensures Serve(f).sent.Some? <==> ReachesGateway(f)
    ensures ReachesGateway(f) ==>
      var photos := f.body.value.photoUrls.photos;
      var req := Serve(f).sent.value;
      && req.model == MODEL && req.tool == TOOL
      && |req.images| == |photos|
      && (forall k :: 0 <= k < |photos| ==> req.images[k] == photos[k].url)
      && (forall k :: 0 <= k < |photos| ==> Contains(req.userText, photos[k].angle))
      && req.context == ComparisonContext(f.body.value.previousScores)
  {
    if ReachesGateway(f) {
      var photos := f.body.value.photoUrls.photos;
      forall k | 0 <= k < |photos|
        ensures Contains(UserText(photos), photos[k].angle)
      {
        UserTextNamesAngles(photos, k);
      }
    }
  }

  /** A failed gateway reply: 429 and 402 pass through with their own messages,
      every other status becomes a plain 500. */
  lemma GatewayStatusMapping(g: Gateway)
    requires !g.ok
    ensures g.status == 429 ==> AfterGateway(Done(g)) == Error(429, RATE_LIMITED)
    ensures g.status == 402 ==> AfterGateway(Done(g)) == Error(402, NO_CREDITS)
    ensures g.status != 429 && g.status != 402 && g.errorText.Done? ==> AfterGateway(Done(g)) == Error(500, AI_FAILED)
    ensures AfterGateway(Done(g)).status in {402, 429, 500}
  {
  }

  /** A good reply without tool-call arguments is a 500; with them, the parsed
      arguments are the body, unchanged. */
  lemma ToolCallExtraction(g: Gateway)
    requires g.ok && g.toolArguments.Done?
    ensures !Truthy(g.toolArguments.value) ==> AfterGateway(Done(g)) == Error(500, NO_STRUCTURE)
    ensures Truthy(g.toolArguments.value) && g.parsed.Done? ==>
      AfterGateway(Done(g)) == Response(200, ResultBody(g.parsed.value), true)
  {
  }

  /** Success is a 200 with the parsed analysis, and it takes every guard and a
      good, well-formed gateway reply. */
  lemma SuccessExactly(f: Facts)
    ensures Serve(f).response.body.ResultBody?
      <==> ReachesGateway(f) && f.gateway.Done? && f.gateway.value.ok
           && f.gateway.value.toolArguments.Done? && Truthy(f.gateway.value.toolArguments.value)
           && f.gateway.value.parsed.Done?
    ensures Serve(f).response.body.ResultBody? ==>
      Serve(f).response.status == 200 && Serve(f).response.body.result == f.gateway.value.parsed.value
  {
  }

  /** Nothing checks the scores: whatever the classifier's arguments parse to,
      out-of-range scores included, is returned as it is. */
  lemma NoScoreRangeCheck(r: AnalysisResult)
    ensures Serve(PassingFacts(r)).response == Response(200, ResultBody(r), true)
  {
  }

  /** A request that passes every guard and whose gateway returns `r`. */
  function PassingFacts(r: AnalysisResult): (f: Facts)
    ensures ReachesGateway(f)
  {
    Facts("POST", Some("Bearer t"), Done(UserLookup(Some("u"), false)),
          Done(Body(Items([PhotoRef("https://x", "top")]), None)), Some("k"),
          Done(Gateway(true, 200, Done(""), Done(Some("{}")), Done(r))))
  }

  /** The handler only ever answers with these statuses. */
  lemma StatusSet(f: Facts)
    ensures Serve(f).response.status in {200, 400, 401, 402, 429, 500}
    ensures Serve(f).response.status == 200 ==> !Serve(f).response.body.ErrorBody?
  {
  }

  /** An exception thrown by the user lookup or the body read is a 500
      carrying the exception's message, or "Unknown error" for a non-Error
      value, and the gateway is never called. */
  lemma ExceptionsAre500(f: Facts)
    requires CaughtBefore(f)
    ensures Serve(f).response == Error(500, CaughtMessage(f))
    ensures Serve(f).sent.None?
  {
  }

  /** The four throw points after the request is sent land in the same catch:
      `fetch` itself, the read of a failed reply's text (for statuses other
      than 429 and 402), the read of a good reply's tool call, and `JSON.parse`
      of its arguments; each gives a 500 with the thrown message, after the
      gateway request was sent. */
  lemma GatewayExceptionsAre500(f: Facts)
    requires ReachesGateway(f)
    ensures Serve(f).sent.Some?
    ensures f.gateway.Raised? ==> Serve(f).response == Error(500, ThrownMessage(f.gateway.thrown))
    ensures f.gateway.Done? && !f.gateway.value.ok && f.gateway.value.status != 429
            && f.gateway.value.status != 402 && f.gateway.value.errorText.Raised? ==>
      Serve(f).response == Error(500, ThrownMessage(f.gateway.value.errorText.thrown))
    ensures f.gateway.Done? && f.gateway.value.ok && f.gateway.value.toolArguments.Raised? ==>
      Serve(f).response == Error(500, ThrownMessage(f.gateway.value.toolArguments.thrown))
    ensures f.gateway.Done? && f.gateway.value.ok && f.gateway.value.toolArguments.Done?
            && Truthy(f.gateway.value.toolArguments.value) && f.gateway.value.parsed.Raised? ==>
      Serve(f).response == Error(500, ThrownMessage(f.gateway.value.parsed.thrown))
  {
  }
}
