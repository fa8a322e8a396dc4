/**
 * The campaign-idea endpoint of main.py (the later revision) and its global
 * HTTPException handler, which turns every HTTPException into the error
 * envelope `{success: false, message: detail}` with the same status.
 */
module RootApp {
  import opened Wrappers
  import opened PyValues
  import IdeaText
  import opened Campaign

  const Model: string := "gemini-1.5-flash-latest"

  const KeyMissing: string := "Error de configuración del servidor: La clave de API de Gemini no está definida."
  const NoContent: string := "La API de Gemini no devolvió contenido."
  const StatusPrefix: string := "Error en la API de Gemini: "
  const ConnectionPrefix: string := "Error de conexión con la API de Gemini: "
  const InternalPrefix: string := "Error interno del servidor: "

  /** The success body of this revision: exactly the ideas and the clinic's name. */
  datatype CampaignResponse = CampaignResponse(ideas: seq<string>, clinic_name: string)

  /**
   * What a call ends in: the response, the HTTPException it raises, or an exception
   * that escapes the handler (raised while reading an error reply, main.py:106).
   */
  datatype Outcome = Success(response: CampaignResponse) | Failure(error: HttpException) | Escaped

  /** The request this revision sends for `req` with `key`. */
  function Outgoing(key: string, req: CampaignRequest, systemPrompt: string): Outbound {
    BuildRequest(Model, key, req, systemPrompt)
  }

  /**
   * The detail for a non-2xx reply: `e.response.json().get('error', {}).get('message', e.response.text)`
   * after the prefix. None when that expression itself raises: the body is not JSON, or
   * it is not an object, or its `error` is not an object.
   */
  function UpstreamErrorDetail(json: Option<Json>, text: string): (d: Option<Detail>)
    ensures json.None? ==> d.None?
    ensures json.Some? && !json.value.Object? ==> d.None?
    ensures json.Some? && json.value.Object? && "error" !in json.value.fields ==> d == Some(Text(StatusPrefix + text))
    ensures json.Some? && json.value.Object? && "error" in json.value.fields ==>
      var error := json.value.fields["error"];
      && (!error.Object? ==> d.None?)
      && (error.Object? && "message" !in error.fields ==> d == Some(Text(StatusPrefix + text)))
      && (error.Object? && "message" in error.fields && error.fields["message"].Str? ==>
            d == Some(Text(StatusPrefix + error.fields["message"].s)))
      && (error.Object? && "message" in error.fields && !error.fields["message"].Str? ==>
            d == Some(ValueText(StatusPrefix, error.fields["message"])))
    ensures d.Some? ==> NonEmpty(d.value)
  {
    match json
    case None => None
    case Some(body) =>
      match Get(body, "error", Object(map[]))
      case Raise(_) => None
      case Value(error) =>
        match Get(error, "message", Str(text))
        case Raise(_) => None
        case Value(Str(m)) => Some(Text(StatusPrefix + m))
        case Value(v) => Some(ValueText(StatusPrefix, v))
  }

  /**
   * An error body in the service's shape, whatever else it carries beside `error`
   * and beside `message` (`code`, `status`, `details`), reports its message.
   */
  lemma ErrorMessageUsed(body: map<string, Json>, error: map<string, Json>, m: string, text: string)
    ensures UpstreamErrorDetail(Some(Object(body["error" := Object(error["message" := Str(m)])])), text)
      == Some(Text(StatusPrefix + m))
  {
  }

  /**
   * `generate_campaign_ideas`. As in the backend revision, the "no content"
   * HTTPException raised inside the `try` is re-raised by `except Exception` as a 500.
   */
  function GenerateCampaignIdeas(key: Option<string>, req: CampaignRequest, systemPrompt: string, call: Outbound -> Upstream): (r: Outcome)
    ensures !HasKey(key) ==> r == Failure(HttpException(500, Text(KeyMissing)))
    ensures r.Success? ==> r.response.clinic_name == req.clinic_name
    ensures r.Success? ==> forall k :: 0 <= k < |r.response.ideas| ==> IdeaText.IsIdea(r.response.ideas[k])
    ensures r.Failure? ==> !IsSuccess(r.error.status) && NonEmpty(r.error.detail)
    ensures r.Escaped? ==> HasKey(key) && var u := call(Outgoing(key.value, req, systemPrompt));
      u.Response? && !IsSuccess(u.status)
  {
    if !HasKey(key) then Failure(HttpException(500, Text(KeyMissing)))
    else
      match call(Outgoing(key.value, req, systemPrompt))
      case RequestError(e) => Failure(HttpException(503, Text(ConnectionPrefix + e)))
      case OtherError(e) => Failure(HttpException(500, Text(InternalPrefix + e)))
      case Response(status, text, json) =>
        if !IsSuccess(status) then
          match UpstreamErrorDetail(json, text)
          case None => Escaped
          case Some(detail) => Failure(HttpException(status, detail))
        else
          match ReadIdeas(json, NoContent)
          case Value(ideas) => Success(CampaignResponse(ideas, req.clinic_name))
          case Raise(e) => Failure(HttpException(500, ExcText(InternalPrefix, e)))
  }

  // ---------------------------------------------------------------- the envelope

  /** The body the handler writes: `{"success": False, "message": detail}`. */
  datatype ErrorContent = ErrorContent(success: bool, message: Detail)

  datatype JsonResponse = JsonResponse(status_code: int, content: ErrorContent)

  /** `http_exception_handler`: the envelope, with the exception's status and its detail as the message. */
  function HttpExceptionHandler(exc: HttpException): (r: JsonResponse)
    ensures !r.content.success
    ensures r.status_code == exc.status && r.content.message == exc.detail
  {
    JsonResponse(exc.status, ErrorContent(false, exc.detail))
  }

  /** What the client receives. */
  datatype HttpReply =
    | Ok(body: CampaignResponse)      // 200 with the response body
    | Error(response: JsonResponse)   // the envelope built by the handler
    | Unhandled                       // an exception escaped the endpoint (main.py:106)

  function Serve(key: Option<string>, req: CampaignRequest, systemPrompt: string, call: Outbound -> Upstream): (r: HttpReply)
    ensures r.Ok? ==> r.body.clinic_name == req.clinic_name
    ensures r.Error? ==>
      !r.response.content.success && !IsSuccess(r.response.status_code) && NonEmpty(r.response.content.message)
    ensures r.Unhandled? ==> HasKey(key)
    ensures !HasKey(key) ==> r == Error(JsonResponse(500, ErrorContent(false, Text(KeyMissing))))
  {
    match GenerateCampaignIdeas(key, req, systemPrompt, call)
    case Success(body) => Ok(body)
    case Failure(exc) => Error(HttpExceptionHandler(exc))
    case Escaped => Unhandled
  }

  /** Every error the endpoint raises reaches the client in the one envelope shape, never with a 2xx status. */
  lemma ErrorsAreEnveloped(key: Option<string>, req: CampaignRequest, systemPrompt: string, call: Outbound -> Upstream)
    ensures var r := GenerateCampaignIdeas(key, req, systemPrompt, call);
      r.Failure? ==>
        Serve(key, req, systemPrompt, call) == Error(JsonResponse(r.error.status, ErrorContent(false, r.error.detail)))
    ensures var reply := Serve(key, req, systemPrompt, call);
      reply.Error? ==>
        !reply.response.content.success && !IsSuccess(reply.response.status_code) && NonEmpty(reply.response.content.message)
  {
  }

  // ---------------------------------------------------------------- classification

  /** Without a key the answer is the configuration error, whatever the service would have said: no call is made. */
  lemma KeyMissingMakesNoCall(key: Option<string>, req: CampaignRequest, systemPrompt: string, call: Outbound -> Upstream, other: Outbound -> Upstream)
    requires !HasKey(key)
    ensures GenerateCampaignIdeas(key, req, systemPrompt, call) == GenerateCampaignIdeas(key, req, systemPrompt, other)
    ensures Serve(key, req, systemPrompt, call) == Error(JsonResponse(500, ErrorContent(false, Text(KeyMissing))))
  {
  }

  /**
   * A non-2xx reply keeps its status. The message is the service's `error.message`
   * when the body has one, else the body's text.
   */
  lemma StatusMirrored(key: Option<string>, req: CampaignRequest, systemPrompt: string, call: Outbound -> Upstream)
    requires HasKey(key)
    requires var u := call(Outgoing(key.value, req, systemPrompt)); u.Response? && !IsSuccess(u.status)
    ensures var u := call(Outgoing(key.value, req, systemPrompt));
      var r := GenerateCampaignIdeas(key, req, systemPrompt, call);
      && (r.Failure? ==> r.error.status == u.status)
      && (r.Escaped? <==> UpstreamErrorDetail(u.json, u.text).None?)
    ensures var u := call(Outgoing(key.value, req, systemPrompt));
      u.json.Some? && u.json.value.Object? && "error" in u.json.value.fields ==>
      var error := u.json.value.fields["error"];
      error.Object? && "message" in error.fields && error.fields["message"].Str? ==>
        GenerateCampaignIdeas(key, req, systemPrompt, call)
          == Failure(HttpException(u.status, Text(StatusPrefix + error.fields["message"].s)))
    ensures var u := call(Outgoing(key.value, req, systemPrompt));
      u.json.Some? && u.json.value.Object? && "error" !in u.json.value.fields ==>
        GenerateCampaignIdeas(key, req, systemPrompt, call) == Failure(HttpException(u.status, Text(StatusPrefix + u.text)))
  {
  }

  /** A connection or timeout error is a 503; any other client exception a 500. */
  lemma TransportAndOtherErrors(key: Option<string>, req: CampaignRequest, systemPrompt: string, call: Outbound -> Upstream)
    requires HasKey(key)
    ensures var u := call(Outgoing(key.value, req, systemPrompt));
      u.RequestError? ==> GenerateCampaignIdeas(key, req, systemPrompt, call).error.status == 503
    ensures var u := call(Outgoing(key.value, req, systemPrompt));
      u.OtherError? ==> GenerateCampaignIdeas(key, req, systemPrompt, call).error.status == 500
  {
  }

  /**
   * A 2xx reply without usable text is never a success: it is a 500, and when the
   * text is missing or empty the detail wraps the "no content" HTTPException.
   */
  lemma NoTextIsInternalError(key: Option<string>, req: CampaignRequest, systemPrompt: string, call: Outbound -> Upstream)
    requires HasKey(key)
    requires var u := call(Outgoing(key.value, req, systemPrompt));
      u.Response? && IsSuccess(u.status) && !exists s :: GeneratedText(u, s)
    ensures var r := GenerateCampaignIdeas(key, req, systemPrompt, call);
      r.Failure? && r.error.status == 500 && r.error.detail.ExcText? && r.error.detail.prefix == InternalPrefix
    ensures var u := call(Outgoing(key.value, req, systemPrompt));
      u.json.Some? && CandidateText(u.json.value).Value? && !Truthy(CandidateText(u.json.value).value) ==>
      GenerateCampaignIdeas(key, req, systemPrompt, call) == Failure(HttpException(500, ExcText(InternalPrefix, HttpRaised(500, NoContent))))
  {
    ReadIdeasSucceeds(call(Outgoing(key.value, req, systemPrompt)), NoContent);
  }

  /** Success happens exactly when the reply carries usable text, and then carries that text's ideas and the clinic's name. */
  lemma SuccessExactly(key: Option<string>, req: CampaignRequest, systemPrompt: string, call: Outbound -> Upstream)
    ensures GenerateCampaignIdeas(key, req, systemPrompt, call).Success? <==>
      HasKey(key) && exists s :: GeneratedText(call(Outgoing(key.value, req, systemPrompt)), s)
    ensures forall s :: HasKey(key) && GeneratedText(call(Outgoing(key.value, req, systemPrompt)), s) ==>
      GenerateCampaignIdeas(key, req, systemPrompt, call) == Success(CampaignResponse(IdeaText.Ideas(s), req.clinic_name))
  {
    if HasKey(key) {
      var u := call(Outgoing(key.value, req, systemPrompt));
      if u.Response? && IsSuccess(u.status) {
        ReadIdeasSucceeds(u, NoContent);
      }
    }
  }
}
