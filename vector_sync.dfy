/** Vector_Sync: pushing a listing to the vector back end when it is
    saved — the guard chain of the save_post hook, the text and metadata of
    the upsert, the request, and the sync marks written to post meta. */
module VectorSync {
  import opened Wrappers
  import opened Strings
  import opened Php
  import opened Wp
  import opened Settings
  import opened VectorQuery

  const UpsertPath := "/api/v1/vectors/upsert"
  const CategoryTaxonomy := "at_biz_dir-category"
  const SyncFlagKey := "_vector_sync"
  const SyncDateKey := "_vector_sync_date"

  /** prepare_listing_text: title and content stripped of tags, joined by
      a blank line, trimmed. */
  function ListingText(lib: Lib, post: Post): (r: string)
    ensures r == [] || (!IsTrimChar(r[0]) && !IsTrimChar(r[|r| - 1]))
    ensures lib.stripTags(post.content) == "" ==> r == Trim(lib.stripTags(post.title))
    // stripped title and content already free of edge whitespace: joined as they are
    ensures var title := lib.stripTags(post.title);
            var content := lib.stripTags(post.content);
            title != "" && !IsTrimChar(title[0]) && content != "" && !IsTrimChar(content[|content| - 1])
            ==> r == title + "\n\n" + content
  {
    var title := lib.stripTags(post.title);
    var content := lib.stripTags(post.content);
    assert title != "" && !IsTrimChar(title[0]) && content != "" && !IsTrimChar(content[|content| - 1])
           ==> Trim(title + "\n\n" + content) == title + "\n\n" + content by {
      var s := title + "\n\n" + content;
      if title != "" && !IsTrimChar(title[0]) && content != "" && !IsTrimChar(content[|content| - 1]) {
        assert s[0] == title[0] && s[|s| - 1] == content[|content| - 1];
        assert TrimLeft(s) == s;
        assert TrimRight(s) == s;
      }
    }
    assert content == "" ==> Trim(title + "\n\n" + content) == Trim(title) by {
      if content == "" {
        assert title + "\n\n" + content == title + "\n\n";
        TrimAppendTrimChars(title, "\n\n");
      }
    }
    Trim(title + "\n\n" + content)
  }

  /** implode(', ', names) of the post's terms in a taxonomy; '' when the
      lookup fails or finds none. */
  function TermNames(site: Site, postId: int, taxonomy: string): (r: string)
    ensures PostTerms(site, postId, taxonomy).Err? ==> r == ""
    ensures PostTerms(site, postId, taxonomy).Ok? && |PostTerms(site, postId, taxonomy).value| == 0 ==> r == ""
  {
    match PostTerms(site, postId, taxonomy)
    case Err(_) => ""
    case Ok(terms) =>
      if |terms| == 0 then "" else Join(Names(terms), ", ")
  }

  function Names(terms: seq<Term>): (r: seq<string>)
    ensures |r| == |terms| && forall i | 0 <= i < |terms| :: r[i] == terms[i].name
  {
    seq(|terms|, i requires 0 <= i < |terms| => terms[i].name)
  }

  /** prepare_listing_metadata: exactly 'category' and 'type', in that
      order, each a string. */
  function ListingMetadata(site: Site, postId: int): (r: Value)
    ensures r.Obj? && Keys(r) == ["category", "type"]
    ensures Get(r, "category") == Some(Str(TermNames(site, postId, CategoryTaxonomy)))
    ensures Get(r, "type") == Some(Str(TermNames(site, postId, TypeTaxonomy)))
  {
    var entries := [("category", Str(TermNames(site, postId, CategoryTaxonomy))),
                    ("type", Str(TermNames(site, postId, TypeTaxonomy)))];
    assert FindEntry(entries[1..], "type") == Some(Str(TermNames(site, postId, TypeTaxonomy)));
    Obj(entries)
  }

  /** The upsert body: the post id, the text and the metadata. */
  function UpsertPayload(lib: Lib, site: Site, postId: int, post: Post): (r: Value)
    ensures r.Obj? && Keys(r) == ["post_id", "text", "metadata"]
    ensures Get(r, "post_id") == Some(Int(postId))
    ensures Get(r, "text") == Some(Str(ListingText(lib, post)))
    ensures Get(r, "metadata") == Some(ListingMetadata(site, postId))
  {
    var entries := [("post_id", Int(postId)), ("text", Str(ListingText(lib, post))),
                    ("metadata", ListingMetadata(site, postId))];
    assert entries[1..][1..] == entries[2..];
    assert FindEntry(entries[2..], "metadata") == Some(ListingMetadata(site, postId));
    assert FindEntry(entries[1..], "metadata") == Some(ListingMetadata(site, postId));
    assert FindEntry(entries[1..], "text") == Some(Str(ListingText(lib, post)));
    Obj(entries)
  }

  function UpsertRequest(base: string, secret: string, payload: Value): (r: Request)
    ensures r.url == base + UpsertPath && r.verb == "POST" && r.timeout == 30
    ensures r.headers == [("X-API-Key", secret), ("Content-Type", "application/json")]
    ensures r.body == Some(payload)
  {
    Request(base + UpsertPath, "POST", [("X-API-Key", secret), ("Content-Type", "application/json")],
            Some(payload), 30)
  }

  /** The response handling of upsert_listing: 200 and 201 succeed. */
  function UpsertOutcome(resp: HttpResponse): (r: Result<bool>)
    ensures resp.Transport? ==> r == Err(resp.error)
    ensures r.Ok? <==> resp.Http? && (resp.status == 200 || resp.status == 201)
    ensures r.Ok? ==> r.value
    ensures resp.Http? && r.Err? ==> r.error == Error("api_error", StatusMessage(resp.status))
  {
    match resp
    case Transport(e) => Err(e)
    case Http(status, _) =>
      if status != 200 && status != 201 then Err(Error("api_error", StatusMessage(status))) else Ok(true)
  }

  /** What upsert_listing sends and returns: nothing is sent when the
      trimmed base URL or the decrypted secret is empty. */
  function UpsertExchange(lib: Lib, settings: map<string, Value>, site: Site,
                          transport: Request -> HttpResponse, postId: int, post: Post): (r: Exchange<bool>)
    ensures EmptyString(BaseUrl(lib, settings)) || EmptyString(SecretKey(lib, settings))
            ==> r == Exchange(Err(Error("missing_credentials", CredentialsMissing)), [])
    ensures !EmptyString(BaseUrl(lib, settings)) && !EmptyString(SecretKey(lib, settings))
            ==> && r.sent == [UpsertRequest(BaseUrl(lib, settings), SecretKey(lib, settings),
                                            UpsertPayload(lib, site, postId, post))]
                && r.result == UpsertOutcome(transport(r.sent[0]))
  {
    var base := BaseUrl(lib, settings);
    var secret := SecretKey(lib, settings);
    if EmptyString(base) || EmptyString(secret) then
      Exchange(Err(Error("missing_credentials", CredentialsMissing)), [])
    else
      var request := UpsertRequest(base, secret, UpsertPayload(lib, site, postId, post));
      Exchange(UpsertOutcome(transport(request)), [request])
  }

  /** The post meta after a successful upsert: the flag 1 and the sync
      time for that post; every other post and meta key unchanged. */
  function MarkSynced(meta: map<int, map<string, Value>>, postId: int, now: string)
    : (r: map<int, map<string, Value>>)
    ensures r.Keys == meta.Keys + {postId}
    ensures MetaValue(r, postId, SyncFlagKey) == Int(1)
    ensures MetaValue(r, postId, SyncDateKey) == Str(now)
    ensures forall id | id in meta && id != postId :: r[id] == meta[id]
    ensures forall k | k != SyncFlagKey && k != SyncDateKey :: MetaValue(r, postId, k) == MetaValue(meta, postId, k)
  {
    var entry := if postId in meta then meta[postId] else map[];
    meta[postId := entry[SyncFlagKey := Int(1)][SyncDateKey := Str(now)]]
  }

  /** upsert_listing: sends the upsert and, only when it succeeds, marks
      the post as synced at `now` (current_time). */
  method UpsertListing(store: MetaStore, lib: Lib, settings: map<string, Value>, site: Site,
                       transport: Request -> HttpResponse, postId: int, post: Post, now: string)
    returns (result: Result<bool>, sent: seq<Request>)
    modifies store
    ensures Exchange(result, sent) == UpsertExchange(lib, settings, site, transport, postId, post)
    ensures result.Ok? ==> store.meta == MarkSynced(old(store.meta), postId, now)
    ensures result.Err? ==> store.meta == old(store.meta)
  {
    var exchange := UpsertExchange(lib, settings, site, transport, postId, post);
    result, sent := exchange.result, exchange.sent;
    if result.Ok? {
      store.meta := MarkSynced(store.meta, postId, now);
    }
  }

  /** The save_post event: the post, and the autosave and revision state
      WordPress reports for it. */
  datatype SaveEvent = SaveEvent(postId: int, post: Post, doingAutosave: bool, isRevision: bool, isAutosave: bool)

  /** The guards of handle_post_save: a listing, not an autosave nor a
      revision, not trashed, auto-sync on, and both credentials present
      (the base URL checked before trimming). */
  predicate ShouldSync(lib: Lib, settings: map<string, Value>, e: SaveEvent) {
    && e.post.postType == ListingPostType
    && !e.doingAutosave
    && !e.isRevision && !e.isAutosave
    && e.post.status != "trash"
    && !Empty(Field(settings, "vector_auto_sync"))
    && !EmptyValue(Coalesce(Field(settings, "vector_api_base_url"), Str("")))
    && !EmptyString(SecretKey(lib, settings))
  }

  /** handle_post_save: when a guard fails nothing is sent and the meta is
      untouched; otherwise it is upsert_listing, whose result is dropped. */
  method HandlePostSave(store: MetaStore, lib: Lib, settings: map<string, Value>, site: Site,
                        transport: Request -> HttpResponse, e: SaveEvent, now: string)
    returns (sent: seq<Request>)
    modifies store
    ensures !ShouldSync(lib, settings, e) ==> sent == [] && store.meta == old(store.meta)
    ensures ShouldSync(lib, settings, e)
            ==> var x := UpsertExchange(lib, settings, site, transport, e.postId, e.post);
                && sent == x.sent
                && store.meta == if x.result.Ok? then MarkSynced(old(store.meta), e.postId, now) else old(store.meta)
  {
    if e.post.postType != ListingPostType { return []; }
    if e.doingAutosave { return []; }
    if e.isRevision || e.isAutosave { return []; }
    if e.post.status == "trash" { return []; }
    if Empty(Field(settings, "vector_auto_sync")) { return []; }
    var base := Coalesce(Field(settings, "vector_api_base_url"), Str(""));
    var secret := SecretKey(lib, settings);
    if EmptyValue(base) || EmptyString(secret) { return []; }
    var ignored;
    ignored, sent := UpsertListing(store, lib, settings, site, transport, e.postId, e.post, now);
  }

  // ---------------------------------------------------------------------
  // Lemmas

  /** The category string splits back into the term names when no name
      contains the separator. */
  lemma CategoryRoundTrip(site: Site, postId: int, terms: seq<Term>)
    requires PostTerms(site, postId, CategoryTaxonomy) == Ok(terms) && |terms| > 0
    requires forall t | t in terms :: !Contains(t.name, ", ")
    ensures Split(TermNames(site, postId, CategoryTaxonomy), ", ") == Names(terms)
  {
    var names := Names(terms);
    assert forall i | 0 <= i < |names| :: !Contains(names[i], ", ") by {
      forall i | 0 <= i < |names| ensures !Contains(names[i], ", ") {
        assert terms[i] in terms;
      }
    }
    SplitJoinRoundTrip(names);
  }

  /** A base URL of slashes passes the hook's untrimmed guard, but the
      trimmed URL is empty: the save still sends nothing and marks nothing. */
  lemma SlashBaseSyncsNothing(lib: Lib, settings: map<string, Value>, site: Site,
                              transport: Request -> HttpResponse, postId: int, post: Post)
    requires "vector_api_base_url" in settings && settings["vector_api_base_url"].Str?
    requires |settings["vector_api_base_url"].s| > 0
    requires forall i | 0 <= i < |settings["vector_api_base_url"].s| :: settings["vector_api_base_url"].s[i] == '/'
    ensures !EmptyValue(Coalesce(Field(settings, "vector_api_base_url"), Str("")))
    ensures UpsertExchange(lib, settings, site, transport, postId, post).sent == []
    ensures UpsertExchange(lib, settings, site, transport, postId, post).result.Err?
  {
    var s := settings["vector_api_base_url"].s;
    assert s[0] == '/';
    assert BaseUrl(lib, settings) == "";
  }

  /** A listing saved twice in a row with the same outcome leaves the same
      meta as saving it once (the second mark overwrites the first). */
  lemma MarkSyncedIdempotent(meta: map<int, map<string, Value>>, postId: int, now: string)
    ensures MarkSynced(MarkSynced(meta, postId, now), postId, now) == MarkSynced(meta, postId, now)
  {
    var once := MarkSynced(meta, postId, now);
    var entry := once[postId];
    assert entry[SyncFlagKey := Int(1)][SyncDateKey := Str(now)] == entry;
  }
}
