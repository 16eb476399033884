/** REST_Controller: the chat endpoint (validation, key check, prompt
    assembly from the full published-listing dump, the chat-completion
    call and its normalisation), the settings endpoints' masking and
    shaping, and the route argument validators. */
module RestController {
  import opened Wrappers
  import opened Strings
  import opened Php
  import opened Wp
  import opened Settings

  const DefaultChatPrompt := "You are a helpful assistant for a business directory website."
  const ListingsHeading := "\n\nAvailable listings:\n"
  const ChatUrl := "https://api.openai.com/v1/chat/completions"
  const MessageRequired := "Message is required."
  const KeyNotConfigured := "OpenAI API key is not configured."
  const ChatFailed := "OpenAI API request failed."
  const ChatInvalid := "Invalid response from OpenAI API."
  const MaskedKey := "sk-***"

  /** One turn of the conversation sent to the chat backend. */
  datatype ChatMessage = ChatMessage(role: string, content: string)

  /** A WP_REST_Response: status and JSON data. */
  datatype RestResponse = RestResponse(status: int, data: Value)

  function FailureResponse(status: int, message: string): RestResponse {
    RestResponse(status, Obj([("success", Bool(false)), ("message", Str(message))]))
  }

  // ---------------------------------------------------------------------
  // Route argument validators of POST /settings

  /** The validate_callback of 'temperature': numeric and within [0, 1]. */
  function ValidTemperature(lib: Lib, p: Value): (ok: bool)
    ensures p.Int? ==> (ok <==> 0 <= p.i <= 1)
    ensures p.Float? ==> (ok <==> 0.0 <= p.r <= 1.0)
    ensures p.Str? ==> (ok <==> lib.numericString(p.s).Some? && 0.0 <= lib.numericString(p.s).value <= 1.0)
    ensures p.Null? || p.Bool? || IsArray(p) ==> !ok
  {
    match Numeric(lib, p)
    case None => false
    case Some(x) => 0.0 <= x <= 1.0
  }

  /** The validate_callback of 'max_tokens': numeric and positive. */
  function ValidMaxTokens(lib: Lib, p: Value): (ok: bool)
    ensures p.Int? ==> (ok <==> p.i > 0)
    ensures p.Float? ==> (ok <==> p.r > 0.0)
    ensures p.Str? ==> (ok <==> lib.numericString(p.s).Some? && lib.numericString(p.s).value > 0.0)
    ensures p.Null? || p.Bool? || IsArray(p) ==> !ok
  {
    match Numeric(lib, p)
    case None => false
    case Some(x) => x > 0.0
  }

  // ---------------------------------------------------------------------
  // Sanitisers

  /** sanitize_text_field($v): '' for an array, otherwise the sanitiser on
      the value's string form. */
  function SanitizeTextField(lib: Lib, v: Value): string {
    if IsArray(v) then "" else lib.sanitizeText(Text(lib, v))
  }

  /** sanitize_textarea_field($v): '' for an array, otherwise the sanitiser
      on the value's string form. */
  function SanitizeTextareaField(lib: Lib, v: Value): string {
    if IsArray(v) then "" else lib.sanitizeTextarea(Text(lib, v))
  }

  // ---------------------------------------------------------------------
  // Settings endpoints

  /** GET /settings: a non-empty 'api_key' is replaced by 'sk-***'; every
      other field, the vector secret included, is returned as stored. */
  function MaskSettings(s: map<string, Value>): (r: map<string, Value>)
    ensures r.Keys == s.Keys
    ensures ApiKeyField in s && !EmptyValue(s[ApiKeyField]) ==> r[ApiKeyField] == Str(MaskedKey)
    ensures ApiKeyField in s && EmptyValue(s[ApiKeyField]) ==> r[ApiKeyField] == s[ApiKeyField]
    ensures forall k | k in s && k != ApiKeyField :: r[k] == s[k]
  {
    if ApiKeyField in s && !EmptyValue(s[ApiKeyField]) then s[ApiKeyField := Str(MaskedKey)] else s
  }

  /** POST /settings: the array handed to save_settings. Exactly the five
      chat fields, each defaulted when the request omits it. */
  function SaveSettingsInput(lib: Lib, params: Value): (r: map<string, Value>)
    ensures r.Keys == {"api_key", "model", "system_prompt", "temperature", "max_tokens"}
    ensures !IsSet(Get(params, "api_key")) ==> r["api_key"] == Str("")
    ensures !IsSet(Get(params, "model")) ==> r["model"] == Str("gpt-3.5-turbo")
    ensures !IsSet(Get(params, "system_prompt")) ==> r["system_prompt"] == Str("")
    ensures !IsSet(Get(params, "temperature")) ==> r["temperature"] == Float(0.7)
    ensures !IsSet(Get(params, "max_tokens")) ==> r["max_tokens"] == Int(1000)
    // a given api_key or model is sanitised; an array one becomes ''
    ensures IsSet(Get(params, "api_key")) ==> r["api_key"] == Str(SanitizeTextField(lib, Get(params, "api_key").value))
    ensures IsSet(Get(params, "api_key")) && IsArray(Get(params, "api_key").value) ==> r["api_key"] == Str("")
    ensures IsSet(Get(params, "model")) ==> r["model"] == Str(SanitizeTextField(lib, Get(params, "model").value))
    ensures IsSet(Get(params, "model")) && IsArray(Get(params, "model").value) ==> r["model"] == Str("")
    ensures IsSet(Get(params, "system_prompt")) ==> r["system_prompt"] == Str(lib.ksesPost(Text(lib, Get(params, "system_prompt").value)))
    ensures IsSet(Get(params, "temperature")) ==> r["temperature"] == Float(lib.floatval(Get(params, "temperature").value))
    ensures IsSet(Get(params, "max_tokens")) ==> r["max_tokens"] == Int(IntVal(lib, Get(params, "max_tokens").value))
  {
    var p := (k: string) => Get(params, k);
    map[
      "api_key" := if IsSet(p("api_key")) then Str(SanitizeTextField(lib, p("api_key").value)) else Str(""),
      "model" := if IsSet(p("model")) then Str(SanitizeTextField(lib, p("model").value)) else Str("gpt-3.5-turbo"),
      "system_prompt" := if IsSet(p("system_prompt")) then Str(lib.ksesPost(Text(lib, p("system_prompt").value))) else Str(""),
      "temperature" := if IsSet(p("temperature")) then Float(lib.floatval(p("temperature").value)) else Float(0.7),
      "max_tokens" := if IsSet(p("max_tokens")) then Int(IntVal(lib, p("max_tokens").value)) else Int(1000)
    ]
  }

  // ---------------------------------------------------------------------
  // The full listing dump and its context block

  /** The WP_Query of get_listings_data: every published listing, in the
      query's order. */
  function PublishedListings(posts: seq<Post>): (r: seq<Post>)
    ensures |r| <= |posts|
    ensures forall p :: p in r <==> p in posts && IsPublishedListing(p)
    decreases |posts|
  {
    if |posts| == 0 then []
    else
      var front := PublishedListings(posts[..|posts| - 1]);
      assert posts == posts[..|posts| - 1] + [posts[|posts| - 1]];
      if IsPublishedListing(posts[|posts| - 1]) then front + [posts[|posts| - 1]] else front
  }

  function Row(p: Post): ListingRow {
    ListingRow(p.id, p.title, p.content)
  }

  /** What get_listings_data returns: the cached dump when the transient
      holds one, else a fresh row per published listing. */
  function ListingsData(cached: Option<seq<ListingRow>>, site: Site): seq<ListingRow> {
    match cached
    case Some(rows) => rows
    case None =>
      var posts := PublishedListings(site.posts);
      seq(|posts|, i requires 0 <= i < |posts| => Row(posts[i]))
  }

  /** The block get_listings_context renders for one listing. */
  function ContextBlock(lib: Lib, row: ListingRow): string {
    "Title: " + row.title + "\nContent: " + lib.stripTags(row.content) + "\n\n"
  }

  /** The context string: the blocks of the listings, in order. */
  function RenderContext(lib: Lib, rows: seq<ListingRow>): string
    decreases |rows|
  {
    if |rows| == 0 then ""
    else RenderContext(lib, rows[..|rows| - 1]) + ContextBlock(lib, rows[|rows| - 1])
  }

  /** get_listings_data: cache-or-query, storing a fresh dump in the
      transient (its one-hour expiry is not modelled). */
  method GetListingsData(cache: Transients, site: Site) returns (rows: seq<ListingRow>)
    modifies cache
    ensures rows == ListingsData(old(cache.listings), site)
    ensures cache.listings == Some(rows)
  {
    if cache.listings.Some? {
      rows := cache.listings.value;
      return;
    }
    var posts := PublishedListings(site.posts);
    rows := [];
    var i := 0;
    while i < |posts|
      invariant 0 <= i <= |posts|
      invariant |rows| == i
      invariant forall j | 0 <= j < i :: rows[j] == Row(posts[j])
    {
      rows := rows + [Row(posts[i])];
      i := i + 1;
    }
    cache.listings := Some(rows);
  }

  /** get_listings_context: the context block of the listing dump. */
  method GetListingsContext(cache: Transients, site: Site, lib: Lib) returns (context: string)
    modifies cache
    ensures context == RenderContext(lib, ListingsData(old(cache.listings), site))
    ensures cache.listings == Some(ListingsData(old(cache.listings), site))
  {
    var listings := GetListingsData(cache, site);
    context := "";
    var i := 0;
    while i < |listings|
      invariant 0 <= i <= |listings|
      invariant context == RenderContext(lib, listings[..i])
    {
      assert listings[..i + 1][..i] == listings[..i];
      context := context + ContextBlock(lib, listings[i]);
      i := i + 1;
    }
    assert listings[..|listings|] == listings;
  }

  // ---------------------------------------------------------------------
  // Prompt assembly

  /** The system turn: the configured prompt when it is non-empty, else the
      built-in sentence, then the listings heading and the context. */
  function SystemPrompt(lib: Lib, settings: map<string, Value>, context: string): (r: string)
    ensures !Empty(Field(settings, "system_prompt"))
            ==> r == Text(lib, settings["system_prompt"]) + ListingsHeading + context
    ensures Empty(Field(settings, "system_prompt"))
            ==> r == DefaultChatPrompt + ListingsHeading + context
  {
    var configured := Field(settings, "system_prompt");
    (if !Empty(configured) then Text(lib, configured.value) else DefaultChatPrompt) + ListingsHeading + context
  }

  /** A history entry is kept when both 'role' and 'content' are set. */
  predicate IsHistoryEntry(c: Value) {
    IsSet(Get(c, "role")) && IsSet(Get(c, "content"))
  }

  /** The turn a kept entry becomes: its role through sanitize_text_field,
      its content through sanitize_textarea_field. */
  function HistoryTurn(lib: Lib, c: Value): (r: ChatMessage)
    requires IsHistoryEntry(c)
    ensures r.role == SanitizeTextField(lib, Get(c, "role").value)
    ensures r.content == SanitizeTextareaField(lib, Get(c, "content").value)
    ensures IsArray(Get(c, "role").value) ==> r.role == ""
    ensures IsArray(Get(c, "content").value) ==> r.content == ""
  {
    ChatMessage(SanitizeTextField(lib, Get(c, "role").value),
                SanitizeTextareaField(lib, Get(c, "content").value))
  }

  /** The turns kept from the history, in their original order. */
  function HistoryTurns(lib: Lib, history: seq<Value>): (r: seq<ChatMessage>)
    ensures |r| <= |history|
    ensures |r| == |history| <==> forall i | 0 <= i < |history| :: IsHistoryEntry(history[i])
    decreases |history|
  {
    if |history| == 0 then []
    else
      var front := history[..|history| - 1];
      var last := history[|history| - 1];
      var turns := HistoryTurns(lib, front);
      assert forall i | 0 <= i < |front| :: front[i] == history[i];
      if IsHistoryEntry(last) then turns + [HistoryTurn(lib, last)] else turns
  }

  /** The message list sent to the chat backend. */
  function ChatMessages(lib: Lib, system: string, history: seq<Value>, user: string): seq<ChatMessage> {
    [ChatMessage("system", system)] + HistoryTurns(lib, history) + [ChatMessage("user", user)]
  }

  /** The foreach of handle_chat: the system turn, the well-formed history
      turns in order, the user message last. */
  method BuildMessages(lib: Lib, system: string, history: seq<Value>, user: string)
    returns (messages: seq<ChatMessage>)
    ensures messages == ChatMessages(lib, system, history, user)
    ensures |messages| == 2 + |HistoryTurns(lib, history)|
    ensures messages[0] == ChatMessage("system", system)
    ensures messages[|messages| - 1] == ChatMessage("user", user)
    ensures messages[1..|messages| - 1] == HistoryTurns(lib, history)
  {
    messages := [ChatMessage("system", system)];
    var i := 0;
    while i < |history|
      invariant 0 <= i <= |history|
      invariant messages == [ChatMessage("system", system)] + HistoryTurns(lib, history[..i])
    {
      assert history[..i + 1][..i] == history[..i];
      if IsHistoryEntry(history[i]) {
        messages := messages + [HistoryTurn(lib, history[i])];
      }
      i := i + 1;
    }
    assert history[..|history|] == history;
    messages := messages + [ChatMessage("user", user)];
  }

  // ---------------------------------------------------------------------
  // The chat-completion call

  function MessagesJson(ms: seq<ChatMessage>): seq<Value> {
    seq(|ms|, i requires 0 <= i < |ms| => Obj([("role", Str(ms[i].role)), ("content", Str(ms[i].content))]))
  }

  /** The request call_openai_api sends: always the same four body fields,
      the limit under 'max_tokens' whatever the model. */
  function ChatRequest(apiKey: string, model: string, messages: seq<ChatMessage>,
                       temperature: Value, maxTokens: int): (r: Request)
    ensures r.url == ChatUrl && r.verb == "POST" && r.timeout == 30
    ensures r.headers == [("Authorization", "Bearer " + apiKey), ("Content-Type", "application/json")]
    ensures r.body.Some? && r.body.value.Obj?
    ensures Keys(r.body.value) == ["model", "messages", "temperature", "max_tokens"]
    ensures Get(r.body.value, "model") == Some(Str(model))
    ensures Get(r.body.value, "messages") == Some(List(MessagesJson(messages)))
    ensures Get(r.body.value, "temperature") == Some(temperature)
    ensures Get(r.body.value, "max_tokens") == Some(Int(maxTokens))
  {
    var entries := [("model", Str(model)),
                    ("messages", List(MessagesJson(messages))),
                    ("temperature", temperature),
                    ("max_tokens", Int(maxTokens))];
    assert FindEntry(entries[3..], "max_tokens") == Some(Int(maxTokens));
    assert entries[2..][1..] == entries[3..] && entries[1..][1..] == entries[2..];
    assert FindEntry(entries[2..], "temperature") == Some(temperature);
    assert FindEntry(entries[1..], "max_tokens") == Some(Int(maxTokens));
    assert FindEntry(entries[1..], "temperature") == Some(temperature);
    assert FindEntry(entries[1..], "messages") == Some(List(MessagesJson(messages)));
    Request(ChatUrl, "POST",
            [("Authorization", "Bearer " + apiKey), ("Content-Type", "application/json")],
            Some(Obj(entries)),
            30)
  }

  /** choices[0].message.content, when it is set. */
  function ReplyContent(body: Value): Option<Value> {
    match Get(body, "choices")
    case None => None
    case Some(choices) =>
      match Index(choices, 0)
      case None => None
      case Some(first) =>
        var content := GetPath(first, ["message", "content"]);
        if IsSet(content) then content else None
  }

  /** error.message of an error body, or the fallback text. */
  function ErrorMessageOr(lib: Lib, body: Value, fallback: string): string {
    var m := GetPath(body, ["error", "message"]);
    if IsSet(m) then Text(lib, m.value) else fallback
  }

  /** The normalisation of call_openai_api: the reply content or one error. */
  function NormalizeChatReply(lib: Lib, resp: HttpResponse): (r: Result<Value>)
    ensures resp.Transport? ==> r == Err(resp.error)
    ensures resp.Http? && resp.status != 200
            ==> r == Err(Error("openai_error", ErrorMessageOr(lib, resp.body, ChatFailed)))
    ensures resp.Http? && resp.status == 200 && ReplyContent(resp.body).None?
            ==> r == Err(Error("openai_error", ChatInvalid))
    ensures r.Ok? <==> resp.Http? && resp.status == 200 && ReplyContent(resp.body).Some?
    ensures r.Ok? ==> r.value == ReplyContent(resp.body).value && r.value != Null
  {
    match resp
    case Transport(e) => Err(e)
    case Http(status, body) =>
      if status != 200 then Err(Error("openai_error", ErrorMessageOr(lib, body, ChatFailed)))
      else match ReplyContent(body)
        case None => Err(Error("openai_error", ChatInvalid))
        case Some(c) => Ok(c)
  }

  /** The REST response handle_chat builds from the normalised reply. */
  function ReplyResponse(r: Result<Value>): RestResponse {
    match r
    case Err(e) => FailureResponse(500, e.message)
    case Ok(c) => RestResponse(200, Obj([("success", Bool(true)), ("response", c)]))
  }

  // ---------------------------------------------------------------------
  // handle_chat

  /** The sanitised 'message' parameter ('' when it is not set). */
  function MessageParam(lib: Lib, params: Value): string {
    var m := Get(params, "message");
    if IsSet(m) then SanitizeTextareaField(lib, m.value) else ""
  }

  /** The 'conversation' parameter (array() when it is not set). */
  function ConversationParam(params: Value): Value {
    Coalesce(Get(params, "conversation"), List([]))
  }

  /** The chat request handle_chat sends once the message and the key have
      passed, given the listing context. */
  function PreparedChatRequest(lib: Lib, apiKey: string, settings: map<string, Value>,
                               context: string, params: Value): Request {
    ChatRequest(apiKey,
                Text(lib, Coalesce(Field(settings, "model"), Str("gpt-3.5-turbo"))),
                ChatMessages(lib, SystemPrompt(lib, settings, context),
                             Elements(ConversationParam(params)), MessageParam(lib, params)),
                Coalesce(Field(settings, "temperature"), Float(0.7)),
                IntVal(lib, Coalesce(Field(settings, "max_tokens"), Int(1000))))
  }

  /** POST /chat. An empty message is refused before anything else; a
      missing key is refused before the context is built or the backend
      called; otherwise exactly one chat request is sent and its reply
      normalised. */
  method HandleChat(params: Value, sm: SettingsManager, cache: Transients, site: Site,
                    lib: Lib, transport: Request -> HttpResponse)
    returns (resp: RestResponse, sent: seq<Request>)
    modifies cache
    ensures EmptyString(MessageParam(lib, params))
            ==> resp == FailureResponse(400, MessageRequired) && sent == []
                && cache.listings == old(cache.listings)
    ensures !EmptyString(MessageParam(lib, params)) && EmptyString(sm.ApiKey(lib))
            ==> resp == FailureResponse(400, KeyNotConfigured) && sent == []
                && cache.listings == old(cache.listings)
    ensures !EmptyString(MessageParam(lib, params)) && !EmptyString(sm.ApiKey(lib))
            ==> var context := RenderContext(lib, ListingsData(old(cache.listings), site));
                && sent == [PreparedChatRequest(lib, sm.ApiKey(lib), sm.GetSettings(), context, params)]
                && resp == ReplyResponse(NormalizeChatReply(lib, transport(sent[0])))
                && cache.listings == Some(ListingsData(old(cache.listings), site))
  {
    var message := MessageParam(lib, params);
    var conversation := ConversationParam(params);
    if EmptyString(message) {
      resp := FailureResponse(400, MessageRequired);
      sent := [];
      return;
    }
    var apiKey := sm.ApiKey(lib);
    if EmptyString(apiKey) {
      resp := FailureResponse(400, KeyNotConfigured);
      sent := [];
      return;
    }
    var settings := sm.GetSettings();
    var context := GetListingsContext(cache, site, lib);
    var system := SystemPrompt(lib, settings, context);
    var messages := BuildMessages(lib, system, Elements(conversation), message);
    var request := ChatRequest(apiKey,
                               Text(lib, Coalesce(Field(settings, "model"), Str("gpt-3.5-turbo"))),
                               messages,
                               Coalesce(Field(settings, "temperature"), Float(0.7)),
                               IntVal(lib, Coalesce(Field(settings, "max_tokens"), Int(1000))));
    sent := [request];
    resp := ReplyResponse(NormalizeChatReply(lib, transport(request)));
  }

  // ---------------------------------------------------------------------
  // Lemmas

  /** The context of a concatenation is the concatenation of the contexts:
      blocks keep the listings' order. */
  lemma {:induction false} RenderContextAppend(lib: Lib, a: seq<ListingRow>, b: seq<ListingRow>)
    ensures RenderContext(lib, a + b) == RenderContext(lib, a) + RenderContext(lib, b)
    decreases |b|
  {
    if |b| == 0 {
      assert a + b == a;
    } else {
      var b' := b[..|b| - 1];
      assert (a + b)[..|a + b| - 1] == a + b';
      assert (a + b)[|a + b| - 1] == b[|b| - 1];
      RenderContextAppend(lib, a, b');
    }
  }

  /** An empty listing set gives the empty context; one listing gives its
      block. */
  lemma RenderContextSmall(lib: Lib, row: ListingRow)
    ensures RenderContext(lib, []) == ""
    ensures RenderContext(lib, [row]) == "Title: " + row.title + "\nContent: " + lib.stripTags(row.content) + "\n\n"
  {
    assert [row][..0] == [];
  }

  /** History turns of a concatenation: the turns of each part, in order. */
  lemma {:induction false} HistoryTurnsAppend(lib: Lib, a: seq<Value>, b: seq<Value>)
    ensures HistoryTurns(lib, a + b) == HistoryTurns(lib, a) + HistoryTurns(lib, b)
    decreases |b|
  {
    if |b| == 0 {
      assert a + b == a;
    } else {
      var b' := b[..|b| - 1];
      assert (a + b)[..|a + b| - 1] == a + b';
      assert (a + b)[|a + b| - 1] == b[|b| - 1];
      HistoryTurnsAppend(lib, a, b');
    }
  }

  /** An entry missing 'role' or 'content' contributes nothing. */
  lemma MalformedEntryDropped(lib: Lib, a: seq<Value>, c: Value, b: seq<Value>)
    requires !IsHistoryEntry(c)
    ensures HistoryTurns(lib, a + [c] + b) == HistoryTurns(lib, a) + HistoryTurns(lib, b)
  {
    HistoryTurnsAppend(lib, a + [c], b);
    HistoryTurnsAppend(lib, a, [c]);
    assert [c][..0] == [];
  }

  /** An entry with both 'role' and 'content' contributes exactly its
      sanitised turn, in its place. */
  lemma WellFormedEntryKept(lib: Lib, a: seq<Value>, c: Value, b: seq<Value>)
    requires IsHistoryEntry(c)
    ensures HistoryTurns(lib, a + [c] + b) == HistoryTurns(lib, a) + [HistoryTurn(lib, c)] + HistoryTurns(lib, b)
  {
    HistoryTurnsAppend(lib, a + [c], b);
    HistoryTurnsAppend(lib, a, [c]);
    assert [c][..0] == [];
  }

  /** A settings save through POST /settings never touches the vector
      secret or any field other than the five chat fields. */
  lemma RestSaveKeepsOtherSettings(lib: Lib, current: map<string, Value>, params: Value, k: string)
    requires k in current && current[k] != Null  // a null secret is rewritten to ''
    requires k !in {"api_key", "model", "system_prompt", "temperature", "max_tokens"}
    ensures SavedOption(lib, current, SaveSettingsInput(lib, params))[k] == current[k]
  {
  }

  /** The masked key that GET /settings returns, posted back unchanged,
      keeps the stored key. */
  lemma MaskedKeyRoundTrip(lib: Lib, current: map<string, Value>, params: Value)
    requires lib.sanitizeText(MaskedKey) == MaskedKey
    requires ApiKeyField in current && !EmptyValue(current[ApiKeyField])
    requires Get(params, "api_key") == Some(MaskSettings(current)[ApiKeyField])
    ensures SavedOption(lib, current, SaveSettingsInput(lib, params))[ApiKeyField] == current[ApiKeyField]
  {
    var input := SaveSettingsInput(lib, params);
    assert input[ApiKeyField] == Str(MaskedKey);
    assert Contains(MaskedKey, "***") by {
      assert MaskedKey[3..][..3] == "***";
      assert MaskedKey[1..][1..] == MaskedKey[2..];
      assert MaskedKey[2..][1..] == MaskedKey[3..];
    }
  }

  /** An array posted as api_key is sanitised to '', so the stored key is
      kept. */
  lemma ArrayApiKeyKeepsStoredKey(lib: Lib, current: map<string, Value>, params: Value)
    requires IsSet(Get(params, "api_key")) && IsArray(Get(params, "api_key").value)
    ensures SavedOption(lib, current, SaveSettingsInput(lib, params))[ApiKeyField]
            == Coalesce(Field(current, ApiKeyField), Str(""))
  {
  }

  /** A settings save that omits 'system_prompt' stores '', so the chat
      falls back to the built-in sentence, not the longer default of
      get_settings. */
  lemma OmittedPromptUsesBuiltInSentence(lib: Lib, current: map<string, Value>, params: Value, context: string)
    requires !IsSet(Get(params, "system_prompt"))
    ensures var saved := SavedOption(lib, current, SaveSettingsInput(lib, params));
            SystemPrompt(lib, Defaults + saved, context) == DefaultChatPrompt + ListingsHeading + context
  {
  }
}
