/** Abstract_Embedding_Service: what every embedding back end inherits —
    settings validation against the required fields, the settings lookup
    with a default, and make_request's request shaping and response
    normalisation. The instance methods themselves live on the concrete
    class (OpenAIEmbedding.Service), over these definitions. */
module AbstractEmbedding {
  import opened Wrappers
  import opened Strings
  import opened Php
  import opened Wp

  /** The WP_Error validate_settings returns for a missing field. */
  function MissingSetting(field: string): Error {
    Error("missing_setting", "Required setting \"" + field + "\" is missing.")
  }

  /** The position of the first required field that is empty in the
      settings, if any. */
  function FirstMissing(settings: map<string, Value>, required: seq<string>): (r: Option<nat>)
    ensures r.None? <==> forall i | 0 <= i < |required| :: !Empty(Field(settings, required[i]))
    ensures r.Some? ==> && r.value < |required|
                        && Empty(Field(settings, required[r.value]))
                        && forall j | 0 <= j < r.value :: !Empty(Field(settings, required[j]))
    decreases |required|
  {
    if |required| == 0 then None
    else if Empty(Field(settings, required[0])) then Some(0)
    else match FirstMissing(settings, required[1..])
      case None => None
      case Some(k) => Some(k + 1)
  }

  /** The value of validate_settings: true, or missing_setting naming the
      first empty required field. */
  function Validation(settings: map<string, Value>, required: seq<string>): (r: Result<bool>)
    ensures r.Ok? <==> forall i | 0 <= i < |required| :: !Empty(Field(settings, required[i]))
    ensures r.Ok? ==> r.value
  {
    match FirstMissing(settings, required)
    case None => Ok(true)
    case Some(i) => Err(MissingSetting(required[i]))
  }

  /** get_setting($key, $default): the stored value unless it is absent or null. */
  function SettingOr(settings: map<string, Value>, key: string, default: Value): (r: Value)
    ensures key in settings && settings[key] != Null ==> r == settings[key]
    ensures (key !in settings || settings[key] == Null) ==> r == default
  {
    Coalesce(Field(settings, key), default)
  }

  /** The request make_request hands to wp_remote_request: the JSON body
      only when the body is non-empty, and a 30-second timeout. */
  function ServiceRequest(url: string, verb: string, headers: seq<(string, string)>, body: Value): (r: Request)
    ensures r.url == url && r.verb == verb && r.headers == headers && r.timeout == 30
    ensures EmptyValue(body) <==> r.body.None?
    ensures r.body.Some? ==> r.body.value == body
  {
    Request(url, verb, headers, if EmptyValue(body) then None else Some(body), 30)
  }

  /** The status message when an error body carries no error.message. */
  function StatusFailure(status: int): string {
    "API request failed with status code " + IntToDecimal(status) + "."
  }

  /** The response handling of make_request: a transport error passes
      through; 200 and 201 give the decoded body; any other status gives
      api_error with error.message when present. */
  function NormalizeResponse(lib: Lib, resp: HttpResponse): (r: Result<Value>)
    ensures resp.Transport? ==> r == Err(resp.error)
    ensures r.Ok? <==> resp.Http? && (resp.status == 200 || resp.status == 201)
    ensures r.Ok? ==> r.value == resp.body
    ensures resp.Http? && r.Err? && IsSet(GetPath(resp.body, ["error", "message"]))
            ==> r.error == Error("api_error", Text(lib, GetPath(resp.body, ["error", "message"]).value))
    ensures resp.Http? && r.Err? && !IsSet(GetPath(resp.body, ["error", "message"]))
            ==> r.error == Error("api_error", StatusFailure(resp.status))
  {
    match resp
    case Transport(e) => Err(e)
    case Http(status, body) =>
      if status != 200 && status != 201 then
        var m := GetPath(body, ["error", "message"]);
        Err(Error("api_error", if IsSet(m) then Text(lib, m.value) else StatusFailure(status)))
      else Ok(body)
  }

  /** make_request: one request, normalised. */
  function MakeRequest(lib: Lib, transport: Request -> HttpResponse, url: string, verb: string,
                       headers: seq<(string, string)>, body: Value): (r: Exchange<Value>)
    ensures r.sent == [ServiceRequest(url, verb, headers, body)]
    ensures r.result == NormalizeResponse(lib, transport(r.sent[0]))
  {
    var request := ServiceRequest(url, verb, headers, body);
    Exchange(NormalizeResponse(lib, transport(request)), [request])
  }

  // ---------------------------------------------------------------------
  // Lemmas

  /** Validation names a field only if it is required, empty, and every
      field declared before it is set. */
  lemma ValidationNamesFirstEmpty(settings: map<string, Value>, required: seq<string>, i: nat)
    requires i < |required| && Empty(Field(settings, required[i]))
    requires forall j | 0 <= j < i :: !Empty(Field(settings, required[j]))
    ensures Validation(settings, required) == Err(MissingSetting(required[i]))
  {
  }
}
