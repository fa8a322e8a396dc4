/**
 * What both revisions of the campaign-idea endpoint share: the request and its
 * default, the user query, the outbound call and its possible outcomes, how the
 * first candidate's text is dug out of the reply, and the shape of an HTTPException.
 */
module Campaign {
  import opened Wrappers
  import opened PyValues
  import IdeaText

  // ---------------------------------------------------------------- the request

  /** `clinic_specialty` when the request body leaves it out (the same in both revisions). */
  const DefaultSpecialty: string := "odontología general"

  /** How the JSON request body supplies `clinic_specialty`. */
  datatype SpecialtyField = Omitted | ExplicitNull | Given(text: string)

  /**
   * The validated request. `clinic_specialty` is declared `Optional[str]`, so an
   * explicit `null` is accepted and stays `None`; only an omitted field gets the default.
   */
  datatype CampaignRequest = CampaignRequest(clinic_name: string, clinic_specialty: Option<string>)

  /** Validation of the request body into a `CampaignRequest`. */
  function ParseRequest(clinicName: string, specialty: SpecialtyField): (r: CampaignRequest)
    ensures r.clinic_name == clinicName
    ensures specialty.Omitted? ==> r.clinic_specialty == Some(DefaultSpecialty)
    ensures specialty.ExplicitNull? ==> r.clinic_specialty == None
    ensures specialty.Given? ==> r.clinic_specialty == Some(specialty.text)
  {
    match specialty
    case Omitted => CampaignRequest(clinicName, Some(DefaultSpecialty))
    case ExplicitNull => CampaignRequest(clinicName, None)
    case Given(t) => CampaignRequest(clinicName, Some(t))
  }

  /** An `Optional[str]` as an f-string renders it. */
  function Render(o: Option<string>): string {
    match o
    case Some(s) => s
    case None => "None"
  }

  // ---------------------------------------------------------------- the outbound call

  const QueryHead: string := "Genera 3 ideas de campaña para una clínica llamada \""
  const QueryMiddle: string := "\" \n    que se especializa en \""
  const QueryEnd: string := "\"."

  /** The user query: the clinic's name and specialty inserted verbatim, each between double quotes. */
  function UserQuery(req: CampaignRequest): (q: string)
    ensures var n := |QueryHead|;
      n + |req.clinic_name| <= |q| && q[n..n + |req.clinic_name|] == req.clinic_name
    ensures var k := |QueryHead| + |req.clinic_name| + |QueryMiddle|;
      k + |Render(req.clinic_specialty)| <= |q| && q[k..k + |Render(req.clinic_specialty)|] == Render(req.clinic_specialty)
  {
    var q := QueryHead + req.clinic_name + QueryMiddle + Render(req.clinic_specialty) + QueryEnd;
    var k := |QueryHead| + |req.clinic_name| + |QueryMiddle|;
    assert q[k..k + |Render(req.clinic_specialty)|] == Render(req.clinic_specialty);
    q
  }

  /** The fixed `generationConfig` of both revisions. */
  datatype GenerationConfig = GenerationConfig(temperature: real, topK: nat, topP: real, maxOutputTokens: nat)

  const Generation: GenerationConfig := GenerationConfig(0.9, 40, 0.95, 1024)

  const ApiBase: string := "https://generativelanguage.googleapis.com/v1beta/models/"

  /** The endpoint URL: the model's `generateContent` method, with the API key as the last query parameter. */
  function ApiUrl(model: string, key: string): (u: string)
    ensures |ApiBase| + |model| <= |u| && u[..|ApiBase| + |model|] == ApiBase + model
    ensures |key| <= |u| && u[|u| - |key|..] == key
  {
    ApiBase + model + ":generateContent?key=" + key
  }

  /** The POST the endpoint sends to the generation service. */
  datatype Outbound = Outbound(url: string, userQuery: string, systemInstruction: string, config: GenerationConfig)

  /** The POST for `req`: the model's URL with the key, the query carrying the clinic's name, the prompt and the fixed config. */
  function BuildRequest(model: string, key: string, req: CampaignRequest, systemPrompt: string): (o: Outbound)
    ensures |ApiBase| + |model| <= |o.url| && o.url[..|ApiBase| + |model|] == ApiBase + model
    ensures |key| <= |o.url| && o.url[|o.url| - |key|..] == key
    ensures var n := |QueryHead|;
      n + |req.clinic_name| <= |o.userQuery| && o.userQuery[n..n + |req.clinic_name|] == req.clinic_name
    ensures o.systemInstruction == systemPrompt && o.config == Generation
  {
    Outbound(ApiUrl(model, key), UserQuery(req), systemPrompt, Generation)
  }

  /**
   * The query sent carries the clinic's name and specialty verbatim: an omitted
   * specialty is the default, an explicit null is rendered as `None`.
   */
  lemma QueryCarriesRequest(model: string, key: string, name: string, specialty: SpecialtyField, systemPrompt: string)
    ensures var q := BuildRequest(model, key, ParseRequest(name, specialty), systemPrompt).userQuery;
      var n := |QueryHead|;
      n + |name| <= |q| && q[n..n + |name|] == name
    ensures var q := BuildRequest(model, key, ParseRequest(name, specialty), systemPrompt).userQuery;
      var k := |QueryHead| + |name| + |QueryMiddle|;
      && (specialty.Omitted? ==> k + |DefaultSpecialty| <= |q| && q[k..k + |DefaultSpecialty|] == DefaultSpecialty)
      && (specialty.Given? ==> k + |specialty.text| <= |q| && q[k..k + |specialty.text|] == specialty.text)
      && (specialty.ExplicitNull? ==> k + 4 <= |q| && q[k..k + 4] == "None")
  {
  }

  /** What the single POST comes back with. */
  datatype Upstream =
    | Response(status: int, text: string, json: Option<Json>)  // a reply; `json` is the decoded body, None if not JSON
    | RequestError(rendered: string)                          // httpx.RequestError (connection, timeout), as str() renders it
    | OtherError(rendered: string)                            // any other exception raised by the client, as str() renders it

  /** `raise_for_status()` lets exactly the 2xx statuses through. */
  predicate IsSuccess(status: int) {
    200 <= status < 300
  }

  /** `if not gemini_api_key`: an unset or empty variable counts as missing. */
  predicate HasKey(key: Option<string>) {
    key.Some? && key.value != ""
  }

  // ---------------------------------------------------------------- reading the reply

  /**
   * `result.get("candidates", [{}])[0].get("content", {}).get("parts", [{}])[0].get("text", "")`.
   * Missing keys fall back to the defaults; an empty list, or a value of the wrong kind, raises.
   */
  function CandidateText(result: Json): (r: Py<Json>)
    ensures !result.Object? ==> r == Raise(Builtin(AttributeError))
    ensures result.Object? && "candidates" !in result.fields ==> r == Value(Str(""))
    ensures result.Object? && "candidates" in result.fields && result.fields["candidates"] == Array([])
      ==> r == Raise(Builtin(IndexError))
  {
    var candidates :- Get(result, "candidates", Array([Object(map[])]));
    var candidate :- First(candidates);
    var content :- Get(candidate, "content", Object(map[]));
    var parts :- Get(content, "parts", Array([Object(map[])]));
    var part :- First(parts);
    Get(part, "text", Str(""))
  }

  /**
   * A reply whose first candidate's first part carries `text`. The body, the candidate,
   * its content and the part may hold any other fields (`usageMetadata`, `finishReason`,
   * `safetyRatings`, `role`, ...), and any candidates and parts may follow.
   */
  function Reply(body: map<string, Json>, candidate: map<string, Json>, content: map<string, Json>, part: map<string, Json>,
                 moreParts: seq<Json>, moreCandidates: seq<Json>, text: string): Json
  {
    Object(body["candidates" := Array([Object(candidate["content" := Object(content["parts" :=
      Array([Object(part["text" := Str(text)])] + moreParts)])])] + moreCandidates)])
  }

  /** Such a reply yields exactly the text of the first part of the first candidate. */
  lemma ReplyText(body: map<string, Json>, candidate: map<string, Json>, content: map<string, Json>, part: map<string, Json>,
                  moreParts: seq<Json>, moreCandidates: seq<Json>, text: string)
    ensures CandidateText(Reply(body, candidate, content, part, moreParts, moreCandidates, text)) == Value(Str(text))
  {
  }

  /** A first candidate without content, or content without parts, reads as the empty text. */
  lemma MissingContentIsEmpty(body: map<string, Json>, candidate: map<string, Json>, moreCandidates: seq<Json>)
    requires "content" !in candidate || (candidate["content"].Object? && "parts" !in candidate["content"].fields)
    ensures CandidateText(Object(body["candidates" := Array([Object(candidate)] + moreCandidates)])) == Value(Str(""))
  {
  }

  /** A first part without `text` reads as the empty text. */
  lemma MissingTextIsEmpty(body: map<string, Json>, candidate: map<string, Json>, content: map<string, Json>, part: map<string, Json>,
                           moreParts: seq<Json>, moreCandidates: seq<Json>)
    requires "text" !in part
    ensures CandidateText(Object(body["candidates" := Array([Object(candidate["content" := Object(content["parts" :=
      Array([Object(part)] + moreParts)])])] + moreCandidates)])) == Value(Str(""))
  {
  }

  /** Content whose parts list is empty raises IndexError. */
  lemma EmptyPartsRaise(body: map<string, Json>, candidate: map<string, Json>, content: map<string, Json>, moreCandidates: seq<Json>)
    ensures CandidateText(Object(body["candidates" := Array([Object(candidate["content" := Object(content["parts" := Array([])])])]
      + moreCandidates)])) == Raise(Builtin(IndexError))
  {
  }

  /**
   * Lines 130-141 of the backend revision: no text raises the endpoint's own
   * "no content" HTTPException (500); text that is not a string raises on `.split`;
   * otherwise the ideas are the stripped non-empty lines.
   */
  function IdeasOf(text: Json, noContent: string): (r: Py<seq<string>>)
    ensures r.Value? <==> text.Str? && text.s != ""
    ensures r.Value? ==> r.value == IdeaText.Ideas(text.s)
    ensures !Truthy(text) ==> r == Raise(HttpRaised(500, noContent))
  {
    if !Truthy(text) then Raise(HttpRaised(500, noContent))
    else
      match text
      case Str(s) => Value(IdeaText.Ideas(s))
      case _ => Raise(Builtin(AttributeError))
  }

  /** Everything the `try` block does once a 2xx reply is in: decode, dig out the text, build the ideas. */
  function ReadIdeas(json: Option<Json>, noContent: string): (r: Py<seq<string>>)
    ensures json.None? ==> r == Raise(Builtin(JsonDecodeError))
    ensures r.Value? ==>
      && json.Some? && CandidateText(json.value).Value? && CandidateText(json.value).value.Str?
      && r.value == IdeaText.Ideas(CandidateText(json.value).value.s)
    ensures json.Some? && CandidateText(json.value).Raise? ==> r == Raise(CandidateText(json.value).exc)
    ensures json.Some? && CandidateText(json.value).Value? && !Truthy(CandidateText(json.value).value) ==>
      r == Raise(HttpRaised(500, noContent))
  {
    match json
    case None => Raise(Builtin(JsonDecodeError))
    case Some(result) =>
      var text :- CandidateText(result);
      IdeasOf(text, noContent)
  }

  /** The reply carries usable text `s`: a 2xx status, a JSON body, and a non-empty first text part. */
  predicate GeneratedText(u: Upstream, s: string) {
    u.Response? && IsSuccess(u.status) && u.json.Some?
    && CandidateText(u.json.value) == Value(Str(s)) && s != ""
  }

  /** Reading the ideas succeeds exactly on usable text, and then yields that text's ideas. */
  lemma ReadIdeasSucceeds(u: Upstream, noContent: string)
    requires u.Response? && IsSuccess(u.status)
    ensures ReadIdeas(u.json, noContent).Value? <==> exists s :: GeneratedText(u, s)
    ensures forall s :: GeneratedText(u, s) ==> ReadIdeas(u.json, noContent) == Value(IdeaText.Ideas(s))
  {
    if ReadIdeas(u.json, noContent).Value? {
      var text := CandidateText(u.json.value).value;
      assert GeneratedText(u, text.s);
    }
  }

  // ---------------------------------------------------------------- errors

  /**
   * The `detail` of an HTTPException. Where the source formats `str(e)` of a library
   * exception, or a JSON value that is not a string, that part is kept symbolic.
   */
  datatype Detail =
    | Text(text: string)                  // text the model determines completely
    | ExcText(prefix: string, exc: Exc)   // f"{prefix}{str(e)}" for an exception raised inside the `try`
    | ValueText(prefix: string, value: Json)  // f"{prefix}{value}" for a JSON value that is not a string

  /** A detail whose text is sure to be non-empty. */
  predicate NonEmpty(d: Detail) {
    match d
    case Text(t) => t != ""
    case ExcText(p, _) => p != ""
    case ValueText(p, _) => p != ""
  }

  datatype HttpException = HttpException(status: int, detail: Detail)
}
