/**
 * The campaign-idea endpoint of backend/app/main.py: key check, outbound call,
 * reading the first candidate's text, splitting it into ideas, and classifying
 * every failure into an HTTPException.
 */
module BackendApp {
  import opened Wrappers
  import opened PyValues
  import IdeaText
  import opened Campaign

  const Model: string := "gemini-2.0-flash-exp"

  const KeyMissing: string := "API Key de Gemini no configurada en el servidor"
  const NoContent: string := "La API de Gemini no devolvió contenido"
  const StatusPrefix: string := "Error al llamar a la API de Gemini: "
  const ConnectionPrefix: string := "Error de conexión con la API de Gemini: "
  const InternalPrefix: string := "Error interno del servidor: "
  const Generated: string := "Ideas generadas exitosamente"

  /** The success body: the ideas, the clinic's name, the flag and a fixed message. */
  datatype CampaignResponse = CampaignResponse(ideas: seq<string>, clinic_name: string, success: bool, message: Option<string>)

  /** What a call returns: the response, or the HTTPException it raises. */
  datatype Result = Success(response: CampaignResponse) | Failure(error: HttpException)

  /** The request this revision sends for `req` with `key`. */
  function Outgoing(key: string, req: CampaignRequest, systemPrompt: string): Outbound {
    BuildRequest(Model, key, req, systemPrompt)
  }

  /**
   * `generate_campaign_ideas`. `key` is the GEMINI_API_KEY variable, `call` the
   * outcome of the POST for the request it is given. The HTTPException raised for
   * missing text inside the `try` is caught by `except Exception` and re-raised as a
   * 500 whose detail wraps it.
   */
  function GenerateCampaignIdeas(key: Option<string>, req: CampaignRequest, systemPrompt: string, call: Outbound -> Upstream): (r: Result)
    ensures !HasKey(key) ==> r == Failure(HttpException(500, Text(KeyMissing)))
    ensures r.Success? ==>
      r.response.clinic_name == req.clinic_name && r.response.success && r.response.message == Some(Generated)
    ensures r.Success? ==> forall k :: 0 <= k < |r.response.ideas| ==> IdeaText.IsIdea(r.response.ideas[k])
    ensures r.Failure? ==> !IsSuccess(r.error.status) && NonEmpty(r.error.detail)
  {
    if !HasKey(key) then Failure(HttpException(500, Text(KeyMissing)))
    else
      match call(Outgoing(key.value, req, systemPrompt))
      case RequestError(e) => Failure(HttpException(503, Text(ConnectionPrefix + e)))
      case OtherError(e) => Failure(HttpException(500, Text(InternalPrefix + e)))
      case Response(status, text, json) =>
        if !IsSuccess(status) then Failure(HttpException(status, Text(StatusPrefix + text)))
        else
          match ReadIdeas(json, NoContent)
          case Value(ideas) => Success(CampaignResponse(ideas, req.clinic_name, true, Some(Generated)))
          case Raise(e) => Failure(HttpException(500, ExcText(InternalPrefix, e)))
  }

  /** Without a key the answer is the configuration error, whatever the service would have said: no call is made. */
  lemma KeyMissingMakesNoCall(key: Option<string>, req: CampaignRequest, systemPrompt: string, call: Outbound -> Upstream, other: Outbound -> Upstream)
    requires !HasKey(key)
    ensures GenerateCampaignIdeas(key, req, systemPrompt, call) == GenerateCampaignIdeas(key, req, systemPrompt, other)
  {
  }

  /** A non-2xx reply is mirrored: same status, the reply's body after the prefix. */
  lemma StatusMirrored(key: Option<string>, req: CampaignRequest, systemPrompt: string, call: Outbound -> Upstream)
    requires HasKey(key)
    requires var u := call(Outgoing(key.value, req, systemPrompt)); u.Response? && !IsSuccess(u.status)
    ensures var u := call(Outgoing(key.value, req, systemPrompt));
      GenerateCampaignIdeas(key, req, systemPrompt, call) == Failure(HttpException(u.status, Text(StatusPrefix + u.text)))
  {
  }

  /** A connection or timeout error is a 503; any other client exception a 500. */
  lemma TransportAndOtherErrors(key: Option<string>, req: CampaignRequest, systemPrompt: string, call: Outbound -> Upstream)
    requires HasKey(key)
    ensures var u := call(Outgoing(key.value, req, systemPrompt));
      u.RequestError? ==> GenerateCampaignIdeas(key, req, systemPrompt, call).error.status == 503
    ensures var u := call(Outgoing(key.value, req, systemPrompt));
      u.OtherError? ==> GenerateCampaignIdeas(key, req, systemPrompt, call).error.status == 500
  {
  }

  /**
   * A 2xx reply without usable text is never a success: it is a 500, and when the
   * text is missing or empty the detail wraps the "no content" HTTPException.
   */
  lemma NoTextIsInternalError(key: Option<string>, req: CampaignRequest, systemPrompt: string, call: Outbound -> Upstream)
    requires HasKey(key)
    requires var u := call(Outgoing(key.value, req, systemPrompt));
      u.Response? && IsSuccess(u.status) && !exists s :: GeneratedText(u, s)
    ensures var r := GenerateCampaignIdeas(key, req, systemPrompt, call);
      r.Failure? && r.error.status == 500 && r.error.detail.ExcText? && r.error.detail.prefix == InternalPrefix
    ensures var u := call(Outgoing(key.value, req, systemPrompt));
      u.json.Some? && CandidateText(u.json.value).Value? && !Truthy(CandidateText(u.json.value).value) ==>
      GenerateCampaignIdeas(key, req, systemPrompt, call) == Failure(HttpException(500, ExcText(InternalPrefix, HttpRaised(500, NoContent))))
  {
    ReadIdeasSucceeds(call(Outgoing(key.value, req, systemPrompt)), NoContent);
  }

  /** Success happens exactly when the reply carries usable text, and its ideas are that text's ideas. */
  lemma SuccessExactly(key: Option<string>, req: CampaignRequest, systemPrompt: string, call: Outbound -> Upstream)
    ensures GenerateCampaignIdeas(key, req, systemPrompt, call).Success? <==>
      HasKey(key) && exists s :: GeneratedText(call(Outgoing(key.value, req, systemPrompt)), s)
    ensures forall s :: HasKey(key) && GeneratedText(call(Outgoing(key.value, req, systemPrompt)), s) ==>
      GenerateCampaignIdeas(key, req, systemPrompt, call)
        == Success(CampaignResponse(IdeaText.Ideas(s), req.clinic_name, true, Some(Generated)))
  {
    if HasKey(key) {
      var u := call(Outgoing(key.value, req, systemPrompt));
      if u.Response? && IsSuccess(u.status) {
        ReadIdeasSucceeds(u, NoContent);
      }
    }
  }

  /**
   * A 2xx reply whose first candidate's first part is a non-empty text, whatever
   * else it carries, gives that text's ideas and echoes the clinic's name.
   */
  lemma DocumentedReply(key: Option<string>, req: CampaignRequest, systemPrompt: string, call: Outbound -> Upstream,
                        status: int, raw: string, body: map<string, Json>, candidate: map<string, Json>, content: map<string, Json>,
                        part: map<string, Json>, moreParts: seq<Json>, moreCandidates: seq<Json>, text: string)
    requires HasKey(key) && IsSuccess(status) && text != ""
    requires call(Outgoing(key.value, req, systemPrompt))
      == Response(status, raw, Some(Reply(body, candidate, content, part, moreParts, moreCandidates, text)))
    ensures GenerateCampaignIdeas(key, req, systemPrompt, call)
      == Success(CampaignResponse(IdeaText.Ideas(text), req.clinic_name, true, Some(Generated)))
  {
    ReplyText(body, candidate, content, part, moreParts, moreCandidates, text);
    SuccessExactly(key, req, systemPrompt, call);
    assert GeneratedText(call(Outgoing(key.value, req, systemPrompt)), text);
  }
}
