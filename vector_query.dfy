/** Vector_Query: the similarity query against the configured vector
    back end, and the mapping of its hits to published listings with their
    submission-form fields. */
module VectorQuery {
  import opened Wrappers
  import opened Strings
  import opened Php
  import opened Wp
  import opened Settings

  const QueryPath := "/api/v1/vectors/query"
  const TypeTaxonomy := "at_biz_dir_types"
  const CredentialsMissing := "Vector storage API credentials are not configured."
  const QueryInvalid := "Invalid response from vector storage API."

  /** rtrim($settings['vector_api_base_url'] ?? '', '/') */
  function BaseUrl(lib: Lib, settings: map<string, Value>): (r: string)
    ensures var u := Text(lib, Coalesce(Field(settings, "vector_api_base_url"), Str("")));
            && |r| <= |u| && u[..|r|] == r
            && forall i | |r| <= i < |u| :: u[i] == '/'
    ensures r == [] || r[|r| - 1] != '/'
  {
    RTrimSlash(Text(lib, Coalesce(Field(settings, "vector_api_base_url"), Str(""))))
  }

  /** The status-code message of a failed query or upsert. */
  function StatusMessage(status: int): string {
    "Vector storage API returned error code " + IntToDecimal(status) + "."
  }

  /** The query request. The body carries the text and top_k only: the
      filter argument is never sent. */
  function QueryRequest(base: string, secret: string, text: string, topK: int): (r: Request)
    ensures r.url == base + QueryPath && r.verb == "POST" && r.timeout == 30
    ensures r.headers == [("X-API-Key", secret), ("Content-Type", "application/json")]
    ensures r.body.Some? && r.body.value.Obj? && Keys(r.body.value) == ["text", "top_k"]
    ensures Get(r.body.value, "text") == Some(Str(text))
    ensures Get(r.body.value, "top_k") == Some(Int(topK))
    ensures Get(r.body.value, "filter").None?
  {
    var entries := [("text", Str(text)), ("top_k", Int(topK))];
    assert FindEntry(entries[1..], "top_k") == Some(Int(topK));
    assert entries[1..][1..] == [];
    assert FindEntry(entries[1..], "filter") == None;
    Request(base + QueryPath, "POST",
            [("X-API-Key", secret), ("Content-Type", "application/json")],
            Some(Obj(entries)), 30)
  }

  /** The response handling of query: the 'results' array, or an error. */
  function QueryOutcome(resp: HttpResponse): (r: Result<Value>)
    ensures resp.Transport? ==> r == Err(resp.error)
    ensures resp.Http? && resp.status != 200 ==> r == Err(Error("api_error", StatusMessage(resp.status)))
    ensures r.Ok? <==> resp.Http? && resp.status == 200
                       && IsSet(Get(resp.body, "results")) && IsArray(Get(resp.body, "results").value)
    ensures r.Ok? ==> r.value == Get(resp.body, "results").value
    ensures r.Err? && resp.Http? && resp.status == 200 ==> r.error == Error("invalid_response", QueryInvalid)
  {
    match resp
    case Transport(e) => Err(e)
    case Http(status, body) =>
      if status != 200 then Err(Error("api_error", StatusMessage(status)))
      else
        var results := Get(body, "results");
        if !IsSet(results) || !IsArray(results.value) then Err(Error("invalid_response", QueryInvalid))
        else Ok(results.value)
  }

  /** query($text, $top_k): refused without a request when the base URL or
      the decrypted secret is empty; otherwise one request and its outcome. */
  function Query(lib: Lib, settings: map<string, Value>, transport: Request -> HttpResponse,
                 text: string, topK: int): (r: Exchange<Value>)
    ensures EmptyString(BaseUrl(lib, settings)) || EmptyString(SecretKey(lib, settings))
            ==> r == Exchange(Err(Error("missing_credentials", CredentialsMissing)), [])
    ensures !EmptyString(BaseUrl(lib, settings)) && !EmptyString(SecretKey(lib, settings))
            ==> && r.sent == [QueryRequest(BaseUrl(lib, settings), SecretKey(lib, settings), text, topK)]
                && r.result == QueryOutcome(transport(r.sent[0]))
    ensures r.result.Ok? ==> IsArray(r.result.value) && |r.sent| == 1
  {
    var base := BaseUrl(lib, settings);
    var secret := SecretKey(lib, settings);
    if EmptyString(base) || EmptyString(secret) then
      Exchange(Err(Error("missing_credentials", CredentialsMissing)), [])
    else
      var request := QueryRequest(base, secret, text, topK);
      Exchange(QueryOutcome(transport(request)), [request])
  }

  // ---------------------------------------------------------------------
  // Submission-form fields

  /** The line get_submission_form_fields_with_values emits for one field
      (none for a non-array, a field without key, or an empty value). */
  function FieldLine(lib: Lib, meta: map<int, map<string, Value>>, postId: int, field: Value): string {
    if !IsArray(field) then ""
    else
      var key := Get(field, "field_key");
      if Empty(key) then ""
      else
        var caption := if IsSet(Get(field, "label")) then Get(field, "label").value else key.value;
        var value := MetaValue(meta, postId, "_" + Text(lib, key.value));
        if EmptyValue(value) then "" else Text(lib, caption) + ": " + Text(lib, value) + "\n"
  }

  /** The untrimmed output: the lines of the fields, in order. */
  function FieldLines(lib: Lib, meta: map<int, map<string, Value>>, postId: int, fields: seq<Value>): string
    decreases |fields|
  {
    if |fields| == 0 then ""
    else FieldLines(lib, meta, postId, fields[..|fields| - 1]) + FieldLine(lib, meta, postId, fields[|fields| - 1])
  }

  /** The fields array of the listing's first type, if the chain of lookups
      reaches one. */
  function FormFields(site: Site, postId: int): Option<Value> {
    match PostTerms(site, postId, TypeTaxonomy)
    case Err(_) => None
    case Ok(types) =>
      if |types| == 0 || types[0].id == 0 then None
      else
        var form := TermMeta(site, types[0].id, "submission_form_fields");
        if EmptyValue(form) then None
        else
          var fields := Coalesce(Get(form, "fields"), List([]));
          if EmptyValue(fields) || !IsArray(fields) then None else Some(fields)
  }

  /** The value of get_submission_form_fields_with_values. */
  function SubmissionFields(lib: Lib, site: Site, meta: map<int, map<string, Value>>, postId: int): string {
    match FormFields(site, postId)
    case None => ""
    case Some(fields) => Trim(FieldLines(lib, meta, postId, Elements(fields)))
  }

  /** get_submission_form_fields_with_values: '' unless the listing has a
      type whose form has fields; otherwise "label: value" lines for the
      fields whose meta value is truthy, trimmed. */
  method SubmissionFormFields(lib: Lib, site: Site, meta: map<int, map<string, Value>>, postId: int)
    returns (text: string)
    ensures text == SubmissionFields(lib, site, meta, postId)
    ensures FormFields(site, postId).None? ==> text == ""
    ensures text == [] || (!IsTrimChar(text[0]) && !IsTrimChar(text[|text| - 1]))
  {
    var fields := FormFields(site, postId);
    if fields.None? {
      return "";
    }
    var items := Elements(fields.value);
    var output := "";
    var i := 0;
    while i < |items|
      invariant 0 <= i <= |items|
      invariant output == FieldLines(lib, meta, postId, items[..i])
    {
      assert items[..i + 1][..i] == items[..i];
      output := output + FieldLine(lib, meta, postId, items[i]);
      i := i + 1;
    }
    assert items[..|items|] == items;
    text := Trim(output);
  }

  // ---------------------------------------------------------------------
  // Mapping hits to listings

  /** One entry of get_listings_from_query_results. */
  datatype ListingEntry = ListingEntry(id: int, title: string, content: string, url: Value, fields: string)

  /** The post id of a hit: top-level 'post_id', else metadata.post_id, else 0. */
  function HitPostId(lib: Lib, hit: Value): int {
    if IsSet(Get(hit, "post_id")) then IntVal(lib, Get(hit, "post_id").value)
    else if IsSet(GetPath(hit, ["metadata", "post_id"])) then IntVal(lib, GetPath(hit, ["metadata", "post_id"]).value)
    else 0
  }

  /** The published listing a hit names, if any. */
  function HitPost(lib: Lib, site: Site, hit: Value): (r: Option<Post>)
    ensures r.Some? ==> r.value in site.posts && IsPublishedListing(r.value) && r.value.id == HitPostId(lib, hit)
  {
    var id := HitPostId(lib, hit);
    if id == 0 then None
    else match FindPost(site.posts, id)
      case None => None
      case Some(p) => if IsPublishedListing(p) then Some(p) else None
  }

  function Entry(lib: Lib, site: Site, meta: map<int, map<string, Value>>, p: Post): ListingEntry {
    ListingEntry(p.id, p.title, p.content, Permalink(site, p.id), SubmissionFields(lib, site, meta, p.id))
  }

  /** The entries for a sequence of hits. Every entry is a published
      listing of the site, and no more entries than hits. */
  function ListingsFrom(lib: Lib, site: Site, meta: map<int, map<string, Value>>, hits: seq<Value>)
    : (r: seq<ListingEntry>)
    ensures |r| <= |hits|
    ensures forall e | e in r :: exists p | p in site.posts :: IsPublishedListing(p) && e == Entry(lib, site, meta, p)
    decreases |hits|
  {
    if |hits| == 0 then []
    else
      var front := ListingsFrom(lib, site, meta, hits[..|hits| - 1]);
      match HitPost(lib, site, hits[|hits| - 1])
      case None => front
      case Some(p) => front + [Entry(lib, site, meta, p)]
  }

  /** get_listings_from_query_results over the hits of a query. */
  method GetListingsFromQueryResults(lib: Lib, site: Site, meta: map<int, map<string, Value>>, results: Value)
    returns (listings: seq<ListingEntry>)
    requires IsArray(results)
    ensures listings == ListingsFrom(lib, site, meta, Elements(results))
  {
    var hits := Elements(results);
    listings := [];
    var i := 0;
    while i < |hits|
      invariant 0 <= i <= |hits|
      invariant listings == ListingsFrom(lib, site, meta, hits[..i])
    {
      assert hits[..i + 1][..i] == hits[..i];
      var post := HitPost(lib, site, hits[i]);
      if post.Some? {
        var p := post.value;
        var fields := SubmissionFormFields(lib, site, meta, p.id);
        listings := listings + [ListingEntry(p.id, p.title, p.content, Permalink(site, p.id), fields)];
      }
      i := i + 1;
    }
    assert hits[..|hits|] == hits;
  }

  // ---------------------------------------------------------------------
  // Lemmas

  /** Hits map to entries independently and in order. */
  lemma {:induction false} ListingsFromAppend(lib: Lib, site: Site, meta: map<int, map<string, Value>>,
                                              a: seq<Value>, b: seq<Value>)
    ensures ListingsFrom(lib, site, meta, a + b) == ListingsFrom(lib, site, meta, a) + ListingsFrom(lib, site, meta, b)
    decreases |b|
  {
    if |b| == 0 {
      assert a + b == a;
    } else {
      var b' := b[..|b| - 1];
      assert (a + b)[..|a + b| - 1] == a + b';
      assert (a + b)[|a + b| - 1] == b[|b| - 1];
      ListingsFromAppend(lib, site, meta, a, b');
    }
  }

  /** A hit naming a post that is not a published listing (a draft, a page,
      an unknown id, or no id at all) contributes nothing. */
  lemma UnpublishedHitDropped(lib: Lib, site: Site, meta: map<int, map<string, Value>>,
                              a: seq<Value>, hit: Value, b: seq<Value>)
    requires forall p | p in site.posts && p.id == HitPostId(lib, hit) :: !IsPublishedListing(p)
    ensures ListingsFrom(lib, site, meta, a + [hit] + b)
            == ListingsFrom(lib, site, meta, a) + ListingsFrom(lib, site, meta, b)
  {
    ListingsFromAppend(lib, site, meta, a + [hit], b);
    ListingsFromAppend(lib, site, meta, a, [hit]);
    assert [hit][..0] == [];
  }

  /** A hit whose id is 0 or missing (neither 'post_id' nor
      metadata.post_id set) is skipped, whatever posts the site holds. */
  lemma ZeroIdHitDropped(lib: Lib, site: Site, meta: map<int, map<string, Value>>, hit: Value)
    ensures !IsSet(Get(hit, "post_id")) && !IsSet(GetPath(hit, ["metadata", "post_id"])) ==> HitPostId(lib, hit) == 0
    ensures HitPostId(lib, hit) == 0 ==> ListingsFrom(lib, site, meta, [hit]) == []
  {
    assert [hit][..0] == [];
  }

  /** A hit naming a published listing, by either id field, yields its entry. */
  lemma PublishedHitKept(lib: Lib, site: Site, meta: map<int, map<string, Value>>, hit: Value, p: Post)
    requires p.id != 0 && HitPostId(lib, hit) == p.id
    requires FindPost(site.posts, p.id) == Some(p) && IsPublishedListing(p)
    ensures ListingsFrom(lib, site, meta, [hit]) == [Entry(lib, site, meta, p)]
  {
    assert [hit][..0] == [];
  }

  /** A base URL made only of slashes counts as unset: the query sends
      nothing. */
  lemma SlashOnlyBaseSendsNothing(lib: Lib, settings: map<string, Value>, transport: Request -> HttpResponse,
                                  text: string, topK: int)
    requires "vector_api_base_url" in settings && settings["vector_api_base_url"].Str?
    requires forall i | 0 <= i < |settings["vector_api_base_url"].s| :: settings["vector_api_base_url"].s[i] == '/'
    ensures Query(lib, settings, transport, text, topK).sent == []
  {
    var s := settings["vector_api_base_url"].s;
    assert BaseUrl(lib, settings) == "";
  }
}
