/** OpenAI_Embedding_Service: the OpenAI embeddings back end, an object
    holding the settings it was initialised with. */
module OpenAIEmbedding {
  import opened Wrappers
  import opened Php
  import opened Wp
  import opened AbstractEmbedding

  const ServiceName := "OpenAI"
  const RequiredSettings := ["api_key", "model"]
  const EmbeddingsUrl := "https://api.openai.com/v1/embeddings"
  const DefaultModel := "text-embedding-ada-002"
  const DefaultDimensions := 1536

  /** The dimension table of get_dimensions; unknown models give 1536. */
  function DimensionsOf(model: Value): (r: int)
    ensures r == 1536 || r == 3072
    ensures r == 3072 <==> model == Str("text-embedding-3-large")
  {
    if model == Str("text-embedding-ada-002") then 1536
    else if model == Str("text-embedding-3-small") then 1536
    else if model == Str("text-embedding-3-large") then 3072
    else DefaultDimensions
  }

  /** The embeddings batch_embed collects from the response's data items:
      each item's 'embedding' when it is set, in order. */
  function Embeddings(items: seq<Value>): (r: seq<Value>)
    ensures |r| <= |items|
    ensures forall i | 0 <= i < |r| :: r[i] != Null
    ensures (forall i | 0 <= i < |items| :: IsSet(Get(items[i], "embedding"))) ==> |r| == |items|
    decreases |items|
  {
    if |items| == 0 then []
    else
      var e := Get(items[|items| - 1], "embedding");
      Embeddings(items[..|items| - 1]) + (if IsSet(e) then [e.value] else [])
  }

  /** The data items of a response: 'data' when it is set and an array. */
  function DataItems(response: Value): seq<Value> {
    var d := Get(response, "data");
    if IsSet(d) && IsArray(d.value) then Elements(d.value) else []
  }

  /** The headers of an embeddings request. */
  function AuthHeaders(lib: Lib, settings: map<string, Value>): seq<(string, string)> {
    [("Authorization", "Bearer " + Text(lib, SettingOr(settings, "api_key", Str("")))),
     ("Content-Type", "application/json")]
  }

  /** The body of an embeddings request: the texts and the model. */
  function EmbeddingsBody(settings: map<string, Value>, texts: Value): (r: Value)
    ensures r.Obj? && Keys(r) == ["input", "model"]
    ensures Get(r, "input") == Some(texts)
    ensures Get(r, "model") == Some(SettingOr(settings, "model", Str(DefaultModel)))
  {
    var entries := [("input", texts), ("model", SettingOr(settings, "model", Str(DefaultModel)))];
    assert FindEntry(entries[1..], "model") == Some(SettingOr(settings, "model", Str(DefaultModel)));
    Obj(entries)
  }

  /** What batch_embed sends and returns: nothing for no texts; otherwise
      one POST, its error passed through, else the collected embeddings. */
  function BatchEmbedding(lib: Lib, settings: map<string, Value>, transport: Request -> HttpResponse, texts: Value)
    : (r: Exchange<seq<Value>>)
    ensures EmptyValue(texts) ==> r == Exchange(Ok([]), [])
    ensures !EmptyValue(texts) ==>
              && r.sent == [ServiceRequest(EmbeddingsUrl, "POST", AuthHeaders(lib, settings), EmbeddingsBody(settings, texts))]
              && r.sent[0].body == Some(EmbeddingsBody(settings, texts))
    ensures !EmptyValue(texts) && NormalizeResponse(lib, transport(r.sent[0])).Err?
            ==> r.result == Err(NormalizeResponse(lib, transport(r.sent[0])).error)
    ensures !EmptyValue(texts) && NormalizeResponse(lib, transport(r.sent[0])).Ok?
            ==> r.result == Ok(Embeddings(DataItems(NormalizeResponse(lib, transport(r.sent[0])).value)))
  {
    if EmptyValue(texts) then Exchange(Ok([]), [])
    else
      var x := MakeRequest(lib, transport, EmbeddingsUrl, "POST", AuthHeaders(lib, settings), EmbeddingsBody(settings, texts));
      match x.result
      case Err(e) => Exchange(Err(e), x.sent)
      case Ok(response) => Exchange(Ok(Embeddings(DataItems(response))), x.sent)
  }

  /** The outcome of embed given batch_embed's: the first embedding, or
      no_embedding when there is none. */
  function FirstEmbedding(batch: Result<seq<Value>>): (r: Result<Value>)
    ensures batch.Err? ==> r == Err(batch.error)
    ensures batch.Ok? && |batch.value| > 0 && batch.value[0] != Null ==> r == Ok(batch.value[0])
    ensures batch.Ok? && (|batch.value| == 0 || batch.value[0] == Null)
            ==> r == Err(Error("no_embedding", "No embedding generated."))
  {
    match batch
    case Err(e) => Err(e)
    case Ok(embeddings) =>
      if |embeddings| > 0 && embeddings[0] != Null then Ok(embeddings[0])
      else Err(Error("no_embedding", "No embedding generated."))
  }

  /** An OpenAI embedding service: the settings it was initialised with. */
  class Service {
    var settings: map<string, Value>

    constructor ()
      ensures settings == map[]
    {
      settings := map[];
    }

    /** initialize($settings): store them, then validate them. */
    method Initialize(s: map<string, Value>) returns (r: Result<bool>)
      modifies this
      ensures settings == s
      ensures r == Validation(s, RequiredSettings)
    {
      settings := s;
      r := ValidateSettings();
    }

    /** validate_settings: the first required field that is empty is
        reported; otherwise true. */
    method ValidateSettings() returns (r: Result<bool>)
      ensures r == Validation(settings, RequiredSettings)
    {
      var required := RequiredSettings;
      for i := 0 to |required|
        invariant forall j | 0 <= j < i :: !Empty(Field(settings, required[j]))
      {
        if Empty(Field(settings, required[i])) {
          ValidationNamesFirstEmpty(settings, required, i);
          return Err(MissingSetting(required[i]));
        }
      }
      r := Ok(true);
    }

    /** get_setting($key, $default) */
    function GetSetting(key: string, default: Value): (r: Value)
      reads this
      ensures key in settings && settings[key] != Null ==> r == settings[key]
      ensures (key !in settings || settings[key] == Null) ==> r == default
    {
      SettingOr(settings, key, default)
    }

    /** get_dimensions: the dimension of the configured model (the default
        model when none is set). */
    function GetDimensions(): (r: int)
      reads this
      ensures r == 1536 || r == 3072
      ensures r == 3072 <==> GetSetting("model", Str(DefaultModel)) == Str("text-embedding-3-large")
    {
      DimensionsOf(GetSetting("model", Str(DefaultModel)))
    }

    /** batch_embed($texts): the loop collecting the embeddings of the
        response's data items. */
    method BatchEmbed(lib: Lib, transport: Request -> HttpResponse, texts: Value)
      returns (r: Result<seq<Value>>, sent: seq<Request>)
      requires IsArray(texts)
      ensures Exchange(r, sent) == BatchEmbedding(lib, settings, transport, texts)
    {
      if EmptyValue(texts) {
        return Ok([]), [];
      }
      var x := MakeRequest(lib, transport, EmbeddingsUrl, "POST", AuthHeaders(lib, settings), EmbeddingsBody(settings, texts));
      sent := x.sent;
      if x.result.Err? {
        return Err(x.result.error), sent;
      }
      var items := DataItems(x.result.value);
      var embeddings := [];
      for i := 0 to |items|
        invariant embeddings == Embeddings(items[..i])
      {
        assert items[..i + 1][..i] == items[..i];
        var e := Get(items[i], "embedding");
        if IsSet(e) {
          embeddings := embeddings + [e.value];
        }
      }
      assert items[..|items|] == items;
      r := Ok(embeddings);
    }

    /** embed($text): batch_embed of the one text, then its first embedding. */
    method Embed(lib: Lib, transport: Request -> HttpResponse, text: string)
      returns (r: Result<Value>, sent: seq<Request>)
      ensures var x := BatchEmbedding(lib, settings, transport, List([Str(text)]));
              r == FirstEmbedding(x.result) && sent == x.sent
    {
      var batch;
      batch, sent := BatchEmbed(lib, transport, List([Str(text)]));
      r := FirstEmbedding(batch);
    }
  }

  // ---------------------------------------------------------------------
  // Lemmas

  /** Data items concatenate: the embeddings of a + b are those of a then b. */
  lemma {:induction false} EmbeddingsAppend(a: seq<Value>, b: seq<Value>)
    ensures Embeddings(a + b) == Embeddings(a) + Embeddings(b)
    decreases |b|
  {
    if |b| == 0 {
      assert a + b == a;
    } else {
      var b' := b[..|b| - 1];
      assert (a + b)[..|a + b| - 1] == a + b';
      EmbeddingsAppend(a, b');
    }
  }

  /** An item without an embedding contributes nothing. */
  lemma ItemWithoutEmbeddingSkipped(a: seq<Value>, item: Value, b: seq<Value>)
    requires !IsSet(Get(item, "embedding"))
    ensures Embeddings(a + [item] + b) == Embeddings(a + b)
  {
    assert [item][..0] == [];
    assert Embeddings([item]) == [];
    EmbeddingsAppend(a, [item]);
    EmbeddingsAppend(a + [item], b);
    EmbeddingsAppend(a, b);
  }

  /** When the single request succeeds and its first data item carries an
      embedding, embed returns that embedding. */
  lemma EmbedFirstItem(lib: Lib, settings: map<string, Value>, transport: Request -> HttpResponse,
                       text: string, response: Value)
    requires var x := BatchEmbedding(lib, settings, transport, List([Str(text)]));
             NormalizeResponse(lib, transport(x.sent[0])) == Ok(response)
    requires |DataItems(response)| > 0 && IsSet(Get(DataItems(response)[0], "embedding"))
    ensures FirstEmbedding(BatchEmbedding(lib, settings, transport, List([Str(text)])).result)
            == Ok(Get(DataItems(response)[0], "embedding").value)
  {
    var items := DataItems(response);
    EmbeddingsAppend([items[0]], items[1..]);
    assert [items[0]] + items[1..] == items;
    assert [items[0]][..0] == [];
  }

  /** The collected embeddings are non-empty exactly when some data item
      carries an embedding. */
  lemma {:induction false} EmbeddingsNonEmpty(items: seq<Value>)
    ensures |Embeddings(items)| > 0 <==> exists i | 0 <= i < |items| :: IsSet(Get(items[i], "embedding"))
    decreases |items|
  {
    if |items| > 0 {
      var front := items[..|items| - 1];
      EmbeddingsNonEmpty(front);
      assert forall i | 0 <= i < |front| :: front[i] == items[i];
    }
  }

  /** embed succeeds exactly when the single request succeeds and some data
      item (not necessarily the first) carries an embedding. */
  lemma EmbedSucceedsIffSomeEmbedding(lib: Lib, settings: map<string, Value>,
                                      transport: Request -> HttpResponse, text: string)
    ensures var x := BatchEmbedding(lib, settings, transport, List([Str(text)]));
            var n := NormalizeResponse(lib, transport(x.sent[0]));
            FirstEmbedding(x.result).Ok?
            <==> n.Ok? && exists i | 0 <= i < |DataItems(n.value)| :: IsSet(Get(DataItems(n.value)[i], "embedding"))
  {
    var x := BatchEmbedding(lib, settings, transport, List([Str(text)]));
    var n := NormalizeResponse(lib, transport(x.sent[0]));
    if n.Ok? {
      EmbeddingsNonEmpty(DataItems(n.value));
    }
  }
}
