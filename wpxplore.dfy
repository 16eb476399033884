/** WpXplore_Service: the WpXplore back end. Each operation is one call to
    the (unseen) base class's make_request at the trimmed base URL plus a
    fixed path, authenticated by the X-API-Key header. `setting` is the
    base class's get_setting. */
module WpXplore {
  import opened Wrappers
  import opened Strings
  import opened Php
  import opened Wp

  const ServiceName := "WpXplore"
  const RequiredSettings := ["api_base_url", "api_secret_key"]
  const UpsertPath := "/api/v1/vectors/upsert"
  const BatchUpsertPath := "/api/v1/vectors/batch-upsert"
  const VectorsPath := "/api/v1/vectors/"
  const BatchDeletePath := "/api/v1/vectors/batch-delete"
  const QueryPath := "/api/v1/vectors/query"

  /** rtrim(get_setting('api_base_url'), '/') */
  function BaseUrl(lib: Lib, setting: string -> Value): (r: string)
    ensures var u := Text(lib, setting("api_base_url"));
            && |r| <= |u| && u[..|r|] == r
            && forall i | |r| <= i < |u| :: u[i] == '/'
    ensures r == [] || r[|r| - 1] != '/'
  {
    RTrimSlash(Text(lib, setting("api_base_url")))
  }

  function Headers(lib: Lib, setting: string -> Value): seq<(string, string)> {
    [("X-API-Key", Text(lib, setting("api_secret_key"))), ("Content-Type", "application/json")]
  }

  function Post(lib: Lib, setting: string -> Value, path: string, body: Value): ServiceCall {
    ServiceCall(BaseUrl(lib, setting) + path, "POST", Headers(lib, setting), Some(body))
  }

  /** The upsert body: post_id = intval(id), the metadata's text or '', and
      the whole metadata. The vector is not part of it. */
  function UpsertBody(lib: Lib, id: string, metadata: Value): (r: Value)
    ensures r.Obj? && Keys(r) == ["post_id", "text", "metadata"]
    ensures Get(r, "post_id") == Some(Int(lib.stringToInt(id)))
    ensures Get(r, "text") == Some(Coalesce(Get(metadata, "text"), Str("")))
    ensures Get(r, "metadata") == Some(metadata)
  {
    var entries := [("post_id", Int(lib.stringToInt(id))),
                    ("text", Coalesce(Get(metadata, "text"), Str(""))),
                    ("metadata", metadata)];
    assert entries[1..][1..] == entries[2..];
    assert FindEntry(entries[2..], "metadata") == Some(metadata);
    assert FindEntry(entries[1..], "metadata") == Some(metadata);
    assert FindEntry(entries[1..], "text") == Some(Coalesce(Get(metadata, "text"), Str("")));
    Obj(entries)
  }

  /** upsert($id, $vector, $metadata) */
  function Upsert(lib: Lib, setting: string -> Value, makeRequest: ServiceCall -> Result<Value>,
                  id: string, vector: Value, metadata: Value): (r: Delegated<bool>)
    ensures r.calls == [Post(lib, setting, UpsertPath, UpsertBody(lib, id, metadata))]
    ensures makeRequest(r.calls[0]).Ok? ==> r.result == Ok(true)
    ensures makeRequest(r.calls[0]).Err? ==> r.result == Err(makeRequest(r.calls[0]).error)
  {
    Delegate(makeRequest, Post(lib, setting, UpsertPath, UpsertBody(lib, id, metadata)))
  }

  /** batch_upsert($vectors): the records forwarded unchanged. */
  function BatchUpsert(lib: Lib, setting: string -> Value, makeRequest: ServiceCall -> Result<Value>, vectors: Value)
    : (r: Delegated<bool>)
    ensures r.calls == [Post(lib, setting, BatchUpsertPath, Obj([("vectors", vectors)]))]
    ensures makeRequest(r.calls[0]).Ok? ==> r.result == Ok(true)
    ensures makeRequest(r.calls[0]).Err? ==> r.result == Err(makeRequest(r.calls[0]).error)
  {
    Delegate(makeRequest, Post(lib, setting, BatchUpsertPath, Obj([("vectors", vectors)])))
  }

  /** delete($id): DELETE of the url-encoded id, with no body argument. */
  function Delete(lib: Lib, setting: string -> Value, makeRequest: ServiceCall -> Result<Value>, id: string)
    : (r: Delegated<bool>)
    ensures |r.calls| == 1
    ensures r.calls[0].url == BaseUrl(lib, setting) + VectorsPath + lib.urlencode(id)
    ensures r.calls[0].verb == "DELETE" && r.calls[0].body.None?
    ensures r.calls[0].headers == Headers(lib, setting)
    ensures makeRequest(r.calls[0]).Ok? ==> r.result == Ok(true)
    ensures makeRequest(r.calls[0]).Err? ==> r.result == Err(makeRequest(r.calls[0]).error)
  {
    Delegate(makeRequest, ServiceCall(BaseUrl(lib, setting) + VectorsPath + lib.urlencode(id), "DELETE",
                                      Headers(lib, setting), None))
  }

  /** batch_delete($ids): the ids forwarded unchanged. */
  function BatchDelete(lib: Lib, setting: string -> Value, makeRequest: ServiceCall -> Result<Value>, ids: Value)
    : (r: Delegated<bool>)
    ensures r.calls == [Post(lib, setting, BatchDeletePath, Obj([("ids", ids)]))]
    ensures makeRequest(r.calls[0]).Ok? ==> r.result == Ok(true)
    ensures makeRequest(r.calls[0]).Err? ==> r.result == Err(makeRequest(r.calls[0]).error)
  {
    Delegate(makeRequest, Post(lib, setting, BatchDeletePath, Obj([("ids", ids)])))
  }

  /** A query body: the probe under `probeKey`, top_k and the filter, which
      is sent even when empty. */
  function QueryBody(probeKey: string, probe: Value, topK: int, filter: Value): (r: Value)
    requires probeKey != "top_k" && probeKey != "filter"
    ensures r.Obj? && Keys(r) == [probeKey, "top_k", "filter"]
    ensures Get(r, probeKey) == Some(probe)
    ensures Get(r, "top_k") == Some(Int(topK))
    ensures Get(r, "filter") == Some(filter)
  {
    var entries := [(probeKey, probe), ("top_k", Int(topK)), ("filter", filter)];
    assert entries[1..][1..] == entries[2..];
    assert FindEntry(entries[2..], "filter") == Some(filter);
    assert FindEntry(entries[1..], "filter") == Some(filter);
    assert FindEntry(entries[1..], "top_k") == Some(Int(topK));
    Obj(entries)
  }

  /** The results of a query response: 'results' when it is set, else
      array() — a missing 'results' is no error. */
  function QueryResults(makeRequest: ServiceCall -> Result<Value>, call: ServiceCall): (r: Delegated<Value>)
    ensures r.calls == [call]
    ensures makeRequest(call).Err? ==> r.result == Err(makeRequest(call).error)
    ensures makeRequest(call).Ok? ==> r.result.Ok?
    ensures makeRequest(call).Ok? && IsSet(Get(makeRequest(call).value, "results"))
            ==> r.result.value == Get(makeRequest(call).value, "results").value
    ensures makeRequest(call).Ok? && !IsSet(Get(makeRequest(call).value, "results"))
            ==> r.result.value == EmptyArray
  {
    match makeRequest(call)
    case Err(e) => Delegated(Err(e), [call])
    case Ok(response) => Delegated(Ok(Coalesce(Get(response, "results"), EmptyArray)), [call])
  }

  /** query($vector, $top_k, $filter) */
  function Query(lib: Lib, setting: string -> Value, makeRequest: ServiceCall -> Result<Value>,
                 vector: Value, topK: int, filter: Value): (r: Delegated<Value>)
    ensures |r.calls| == 1 && r.calls[0].url == BaseUrl(lib, setting) + QueryPath && r.calls[0].verb == "POST"
    ensures r.calls[0].body == Some(QueryBody("vector", vector, topK, filter))
    ensures r.result.Ok? <==> makeRequest(r.calls[0]).Ok?
    ensures makeRequest(r.calls[0]).Err? ==> r.result == Err(makeRequest(r.calls[0]).error)
    ensures r.result.Ok? ==> r.result.value == Coalesce(Get(makeRequest(r.calls[0]).value, "results"), EmptyArray)
  {
    QueryResults(makeRequest, Post(lib, setting, QueryPath, QueryBody("vector", vector, topK, filter)))
  }

  /** query_by_text($text, $top_k, $filter): the same endpoint with the text
      as the probe. */
  function QueryByText(lib: Lib, setting: string -> Value, makeRequest: ServiceCall -> Result<Value>,
                       text: string, topK: int, filter: Value): (r: Delegated<Value>)
    ensures |r.calls| == 1 && r.calls[0].url == BaseUrl(lib, setting) + QueryPath && r.calls[0].verb == "POST"
    ensures r.calls[0].body == Some(QueryBody("text", Str(text), topK, filter))
    ensures r.result.Ok? <==> makeRequest(r.calls[0]).Ok?
    ensures makeRequest(r.calls[0]).Err? ==> r.result == Err(makeRequest(r.calls[0]).error)
    ensures r.result.Ok? ==> r.result.value == Coalesce(Get(makeRequest(r.calls[0]).value, "results"), EmptyArray)
  {
    QueryResults(makeRequest, Post(lib, setting, QueryPath, QueryBody("text", Str(text), topK, filter)))
  }

  // ---------------------------------------------------------------------
  // Lemmas

  /** Whatever the configured base URL ends with, exactly one '/' joins it
      to an endpoint path. */
  lemma SingleSlashJoin(lib: Lib, setting: string -> Value, path: string)
    requires StartsWith(path, "/")
    ensures var base := BaseUrl(lib, setting);
            var url := Post(lib, setting, path, Null).url;
            && url[|base|] == '/'
            && (|base| == 0 || url[|base| - 1] != '/')
  {
    assert path[0] == '/';
  }

  /** The vector argument of upsert is never sent. */
  lemma UpsertIgnoresVector(lib: Lib, setting: string -> Value, makeRequest: ServiceCall -> Result<Value>,
                            id: string, v1: Value, v2: Value, metadata: Value)
    ensures Upsert(lib, setting, makeRequest, id, v1, metadata) == Upsert(lib, setting, makeRequest, id, v2, metadata)
  {
  }

  /** The text of an upsert is the metadata's 'text' when set, else ''. */
  lemma UpsertTextDefault(lib: Lib, id: string, metadata: Value)
    ensures IsSet(Get(metadata, "text")) ==> Get(UpsertBody(lib, id, metadata), "text") == Get(metadata, "text")
    ensures !IsSet(Get(metadata, "text")) ==> Get(UpsertBody(lib, id, metadata), "text") == Some(Str(""))
  {
  }
}
