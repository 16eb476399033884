/** Pinecone_Service: the Pinecone back end. Every operation is one call
    to the (unseen) base class's make_request, against a base URL built
    from the index name and the environment. `setting` is the base
    class's get_setting. */
module Pinecone {
  import opened Wrappers
  import opened Strings
  import opened Php
  import opened Wp

  const ServiceName := "Pinecone"
  const RequiredSettings := ["api_key", "environment", "index_name"]
  const UpsertPath := "/vectors/upsert"
  const DeletePath := "/vectors/delete"
  const QueryPath := "/query"
  const NotSupported := "Pinecone does not support direct text queries. Please use query() with a vector embedding."

  /** get_api_base_url */
  function BaseUrl(lib: Lib, setting: string -> Value): string {
    "https://" + Text(lib, setting("index_name")) + "-" + Text(lib, setting("environment")) + ".svc.pinecone.io"
  }

  function Headers(lib: Lib, setting: string -> Value): seq<(string, string)> {
    [("Api-Key", Text(lib, setting("api_key"))), ("Content-Type", "application/json")]
  }

  /** A POST to the base URL plus `path`. */
  function Call(lib: Lib, setting: string -> Value, path: string, body: Value): ServiceCall {
    ServiceCall(BaseUrl(lib, setting) + path, "POST", Headers(lib, setting), Some(body))
  }

  /** One Pinecone vector record. */
  function Record(id: Value, values: Value, metadata: Value): Value {
    Obj([("id", id), ("values", values), ("metadata", metadata)])
  }

  /** upsert($id, $vector, $metadata): one record under 'vectors'. */
  function Upsert(lib: Lib, setting: string -> Value, makeRequest: ServiceCall -> Result<Value>,
                  id: string, vector: Value, metadata: Value): (r: Delegated<bool>)
    ensures r.calls == [Call(lib, setting, UpsertPath, Obj([("vectors", List([Record(Str(id), vector, metadata)]))]))]
    ensures makeRequest(r.calls[0]).Ok? ==> r.result == Ok(true)
    ensures makeRequest(r.calls[0]).Err? ==> r.result == Err(makeRequest(r.calls[0]).error)
  {
    Delegate(makeRequest, Call(lib, setting, UpsertPath, Obj([("vectors", List([Record(Str(id), vector, metadata)]))])))
  }

  /** The record batch_upsert builds from one input: its 'id' and 'vector'
      (null when absent), and its metadata or array(). */
  function BatchRecord(v: Value): Value {
    Record(Get(v, "id").GetOr(Null), Get(v, "vector").GetOr(Null), Coalesce(Get(v, "metadata"), EmptyArray))
  }

  /** The records of batch_upsert: one per input, in input order. */
  function BatchRecords(vectors: seq<Value>): (r: seq<Value>)
    ensures |r| == |vectors|
    ensures forall i | 0 <= i < |vectors| :: r[i] == BatchRecord(vectors[i])
    decreases |vectors|
  {
    if |vectors| == 0 then []
    else BatchRecords(vectors[..|vectors| - 1]) + [BatchRecord(vectors[|vectors| - 1])]
  }

  /** batch_upsert($vectors): the loop building one record per input, then
      one call carrying them all. */
  method BatchUpsert(lib: Lib, setting: string -> Value, makeRequest: ServiceCall -> Result<Value>, vectors: Value)
    returns (r: Delegated<bool>)
    requires IsArray(vectors)
    ensures r.calls == [Call(lib, setting, UpsertPath, Obj([("vectors", List(BatchRecords(Elements(vectors))))]))]
    ensures makeRequest(r.calls[0]).Ok? ==> r.result == Ok(true)
    ensures makeRequest(r.calls[0]).Err? ==> r.result == Err(makeRequest(r.calls[0]).error)
  {
    var items := Elements(vectors);
    var records := [];
    var i := 0;
    while i < |items|
      invariant 0 <= i <= |items|
      invariant records == BatchRecords(items[..i])
    {
      assert items[..i + 1][..i] == items[..i];
      records := records + [BatchRecord(items[i])];
      i := i + 1;
    }
    assert items[..|items|] == items;
    r := Delegate(makeRequest, Call(lib, setting, UpsertPath, Obj([("vectors", List(records))])));
  }

  /** delete($id): ids = [id]. */
  function Delete(lib: Lib, setting: string -> Value, makeRequest: ServiceCall -> Result<Value>, id: string)
    : (r: Delegated<bool>)
    ensures r.calls == [Call(lib, setting, DeletePath, Obj([("ids", List([Str(id)]))]))]
    ensures makeRequest(r.calls[0]).Ok? ==> r.result == Ok(true)
    ensures makeRequest(r.calls[0]).Err? ==> r.result == Err(makeRequest(r.calls[0]).error)
  {
    Delegate(makeRequest, Call(lib, setting, DeletePath, Obj([("ids", List([Str(id)]))])))
  }

  /** batch_delete($ids): the ids forwarded unchanged. */
  function BatchDelete(lib: Lib, setting: string -> Value, makeRequest: ServiceCall -> Result<Value>, ids: Value)
    : (r: Delegated<bool>)
    ensures r.calls == [Call(lib, setting, DeletePath, Obj([("ids", ids)]))]
    ensures makeRequest(r.calls[0]).Ok? ==> r.result == Ok(true)
    ensures makeRequest(r.calls[0]).Err? ==> r.result == Err(makeRequest(r.calls[0]).error)
  {
    Delegate(makeRequest, Call(lib, setting, DeletePath, Obj([("ids", ids)])))
  }

  /** The query body: vector, topK, includeMetadata, and the filter only
      when it is non-empty. */
  function QueryBody(vector: Value, topK: int, filter: Value): (r: Value)
    ensures r.Obj?
    ensures Get(r, "vector") == Some(vector) && Get(r, "topK") == Some(Int(topK))
    ensures Get(r, "includeMetadata") == Some(Bool(true))
    ensures EmptyValue(filter) ==> Get(r, "filter").None? && Keys(r) == ["vector", "topK", "includeMetadata"]
    ensures !EmptyValue(filter) ==> Get(r, "filter") == Some(filter) && Keys(r) == ["vector", "topK", "includeMetadata", "filter"]
  {
    var entries := [("vector", vector), ("topK", Int(topK)), ("includeMetadata", Bool(true))]
                   + (if EmptyValue(filter) then [] else [("filter", filter)]);
    assert entries[1..][1..] == entries[2..] && entries[2..][1..] == entries[3..];
    assert FindEntry(entries[3..], "filter") == if EmptyValue(filter) then None else Some(filter);
    assert FindEntry(entries[2..], "filter") == FindEntry(entries[3..], "filter");
    assert FindEntry(entries[1..], "filter") == FindEntry(entries[3..], "filter");
    assert FindEntry(entries[2..], "includeMetadata") == Some(Bool(true));
    assert FindEntry(entries[1..], "includeMetadata") == Some(Bool(true));
    assert FindEntry(entries[1..], "topK") == Some(Int(topK));
    Obj(entries)
  }

  /** One normalised match: its id, score and metadata, defaulting to '',
      0 and array(). */
  function MatchRecord(m: Value): Value {
    Obj([("id", Coalesce(Get(m, "id"), Str(""))),
         ("score", Coalesce(Get(m, "score"), Int(0))),
         ("metadata", Coalesce(Get(m, "metadata"), EmptyArray))])
  }

  /** The normalised matches: one per match, in order. */
  function MatchRecords(matches: seq<Value>): (r: seq<Value>)
    ensures |r| == |matches|
    ensures forall i | 0 <= i < |matches| :: r[i] == MatchRecord(matches[i])
    decreases |matches|
  {
    if |matches| == 0 then []
    else MatchRecords(matches[..|matches| - 1]) + [MatchRecord(matches[|matches| - 1])]
  }

  /** The matches array of a query response, or none at all. */
  function Matches(response: Value): seq<Value> {
    var m := Get(response, "matches");
    if IsSet(m) && IsArray(m.value) then Elements(m.value) else []
  }

  /** query($vector, $top_k, $filter): one call; an error passes through,
      otherwise the normalised matches ([] when there are none). */
  method Query(lib: Lib, setting: string -> Value, makeRequest: ServiceCall -> Result<Value>,
               vector: Value, topK: int, filter: Value)
    returns (r: Delegated<seq<Value>>)
    ensures r.calls == [Call(lib, setting, QueryPath, QueryBody(vector, topK, filter))]
    ensures makeRequest(r.calls[0]).Err? ==> r.result == Err(makeRequest(r.calls[0]).error)
    ensures makeRequest(r.calls[0]).Ok? ==> r.result == Ok(MatchRecords(Matches(makeRequest(r.calls[0]).value)))
  {
    var call := Call(lib, setting, QueryPath, QueryBody(vector, topK, filter));
    var response := makeRequest(call);
    if response.Err? {
      return Delegated(Err(response.error), [call]);
    }
    var matches := Matches(response.value);
    var results := [];
    var i := 0;
    while i < |matches|
      invariant 0 <= i <= |matches|
      invariant results == MatchRecords(matches[..i])
    {
      assert matches[..i + 1][..i] == matches[..i];
      results := results + [MatchRecord(matches[i])];
      i := i + 1;
    }
    assert matches[..|matches|] == matches;
    r := Delegated(Ok(results), [call]);
  }

  /** query_by_text: not supported, for every input, and nothing is sent. */
  function QueryByText(text: string, topK: int, filter: Value): (r: Delegated<seq<Value>>)
    ensures r.calls == []
    ensures r.result.Err? && r.result.error == Error("not_supported", NotSupported)
  {
    Delegated(Err(Error("not_supported", NotSupported)), [])
  }

  // ---------------------------------------------------------------------
  // Lemmas

  /** The base URL is an https URL under svc.pinecone.io, with the index
      name and the environment, joined by '-', in that order. */
  lemma BaseUrlShape(lib: Lib, setting: string -> Value)
    ensures var u := BaseUrl(lib, setting);
            var idx := Text(lib, setting("index_name"));
            var env := Text(lib, setting("environment"));
            && |u| == 25 + |idx| + |env|
            && StartsWith(u, "https://")
            && u[8..8 + |idx|] == idx
            && u[8 + |idx|] == '-'
            && u[9 + |idx|..9 + |idx| + |env|] == env
            && u[|u| - 16..] == ".svc.pinecone.io"
  {
    var u := BaseUrl(lib, setting);
    var idx := Text(lib, setting("index_name"));
    var env := Text(lib, setting("environment"));
    assert u == "https://" + idx + "-" + env + ".svc.pinecone.io";
    assert u[..8] == "https://";
  }

  /** A record built by batch_upsert from an input without metadata
      carries array(). */
  lemma BatchRecordDefaultsMetadata(v: Value)
    requires !IsSet(Get(v, "metadata"))
    ensures Get(BatchRecord(v), "metadata") == Some(EmptyArray)
  {
    var entries := BatchRecord(v).entries;
    assert entries[1..][1..] == entries[2..];
    assert FindEntry(entries[2..], "metadata") == Some(EmptyArray);
    assert FindEntry(entries[1..], "metadata") == Some(EmptyArray);
  }

  /** A match without id, score or metadata (or with them null)
      normalises to the defaults. */
  lemma MatchRecordDefaults(m: Value)
    requires !IsSet(Get(m, "id")) && !IsSet(Get(m, "score")) && !IsSet(Get(m, "metadata"))
    ensures MatchRecord(m) == Obj([("id", Str("")), ("score", Int(0)), ("metadata", EmptyArray)])
  {
  }

  /** Batches concatenate: the records of a + b are those of a then b. */
  lemma {:induction false} BatchRecordsAppend(a: seq<Value>, b: seq<Value>)
    ensures BatchRecords(a + b) == BatchRecords(a) + BatchRecords(b)
    decreases |b|
  {
    if |b| == 0 {
      assert a + b == a;
    } else {
      var b' := b[..|b| - 1];
      assert (a + b)[..|a + b| - 1] == a + b';
      BatchRecordsAppend(a, b');
    }
  }
}
