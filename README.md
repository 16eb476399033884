# Directorist Smart Assistant: a Dafny model of the PHP back end

Directorist Smart Assistant is a WordPress plugin for Directorist
directories. It adds a chat assistant that answers questions about the
directory's listings, and optionally keeps a vector index of those listings.
This project models the plugin's PHP back end as Dafny datatypes, functions,
classes and methods, and proves what each operation promises about its
result and its new state:

- **The REST controller** (`RestController`):
  - POST /chat: message validation, the API-key check, the listing context, the message list, the chat-completion request and the normalisation of its reply;
  - GET /settings: masking of the API key;
  - POST /settings: shaping of the five chat fields;
  - the route validators for `temperature` and `max_tokens`.
- **The settings store** (`Settings`). Stored values are merged over sixteen defaults. On save, the API key and the vector secret are each preserved, encrypted or kept as given. Decryption passes a plaintext `sk-` key through unchanged.
- **Retrieval mapping** (`VectorQuery`): the query's guards, request and response checks; the mapping of query hits to published listings; the "Label: Value" lines of a listing's custom fields.
- **Listing sync** (`VectorSync`): the guard chain of the `save_post` hook, the upsert payload, and the sync marks in post meta, which are written only after a successful upsert.
- **Provider registries.** The vector one is `VectorServiceManager`, the embedding one `EmbeddingServiceManager`. Each covers name resolution, the per-service settings, and the cached current instance.
- **Vector back ends**: `Pinecone` and `WpXplore`. This covers their URLs and request bodies, and how their match lists are normalised.
- **The embedding back end.** `AbstractEmbedding` holds validation, the settings lookup, and the request and response handling of `make_request`. `OpenAIEmbedding` holds the dimension table, `batch_embed` and `embed`.

Shared modules:
- `Php` is PHP's value model. It has `empty`, `isset`, `??`, coercion to strings and ints, and ordered associative arrays.
- `Wp` holds WordPress shapes: `WP_Error`, HTTP requests and responses, posts, terms, post meta and the listing transient.
- `Strings` is the string toolkit: trim, rtrim, split/join and decimal rendering.

Effects become inputs:
- The HTTP transport is a function from request to response, either `Transport(error)` or `Http(status, decoded body)`. Every operation also returns the list of requests it sent, so "no request is made" is the statement `sent == []`.
- The library routines are uninterpreted fields of `Php.Lib`. These are tag stripping, the sanitisers, `wp_kses_post`, `urlencode`, `intval`/`floatval` of strings, `is_numeric` of strings, float formatting, and the site cipher.
- The post store, terms, term meta and permalinks are the `Wp.Site` value. Post meta sits in a `MetaStore` object, and the listing transient in a `Transients` object.
- The vector services' base class (`Abstract_Vector_DB_Service`) is not part of this model. Its `get_setting` and `make_request` are parameters of the vector back-end functions, and its `initialize` is a parameter of `VectorServiceManager.Manager.GetService`.

Behaviour as the code has it, where a reader might expect otherwise:
- handle_chat always builds its context from the full dump of published listings. It never uses vector retrieval.
- It always sends `max_tokens`, whatever the model.
- Vector_Query never sends its filter argument.
- Vector_Sync posts to the WpXplore endpoint directly. It stores no external vector id and offers no bulk sync.
- POST /settings resets every chat field that the request omits to a fixed default (`RestController.SaveSettingsInput`). An omitted `system_prompt` is stored as `''`, so the chat then falls back to the short built-in sentence (`RestController.OmittedPromptUsesBuiltInSentence`).
- `handle_post_save` checks the base URL before trimming it. A base URL made only of slashes passes that guard, but `upsert_listing` then trims it to `''` and sends nothing (`VectorSync.SlashBaseSyncsNothing`).
- Both managers compare the cached instance's display name ('WpXplore', 'Pinecone', 'OpenAI') with the requested name. A request by registry key ('wpxplore', 'pinecone', 'openai') therefore never hits the cache, and every such call builds and initialises a new instance (`VectorServiceManager.RegistryKeysNeverHitCache`, `EmbeddingServiceManager.RegistryKeyNeverHitsCache`).

## Model

| member | source | states |
|---|---|---|
| RestController.ValidTemperature | inc/REST_API/REST_Controller.php:89-91 | an int, a float or a numeric string is accepted exactly when its value lies in [0, 1]; null, booleans and arrays are refused |
| RestController.ValidMaxTokens | inc/REST_API/REST_Controller.php:96-98 | an int, a float or a numeric string is accepted exactly when its value is positive; null, booleans and arrays are refused |
| RestController.MaskSettings | inc/REST_API/REST_Controller.php:159-168 | same keys; a non-empty api_key becomes 'sk-***', an empty one is kept; every other field (the vector secret included) is returned as stored |
| RestController.SaveSettingsInput | inc/REST_API/REST_Controller.php:176-188 | exactly the five chat fields; each omitted one takes its fixed default ('', gpt-3.5-turbo, '', 0.7, 1000); a given api_key or model goes through sanitize_text_field, which makes an array ''; the prompt through wp_kses_post, temperature through floatval, max_tokens through intval |
| RestController.PublishedListings | inc/REST_API/REST_Controller.php:340-347 | a post is in the dump iff it is in the store and is a published listing; never longer than the store |
| RestController.GetListingsData | inc/REST_API/REST_Controller.php:331-362 | the cached dump when the transient holds one, else one row per published listing in query order; the transient then holds the returned rows |
| RestController.GetListingsContext | inc/REST_API/REST_Controller.php:311-324 | the context is the rendering of the listing dump, block by block, and the transient holds that dump |
| RestController.SystemPrompt | inc/REST_API/REST_Controller.php:242-243 | the configured prompt when non-empty, else the built-in sentence, always followed by the listings heading and the context |
| RestController.HistoryTurns | inc/REST_API/REST_Controller.php:250-258 | never more turns than history entries, and exactly as many iff every entry has both role and content; with WellFormedEntryKept and MalformedEntryDropped each entry's contribution is fixed |
| RestController.HistoryTurn | inc/REST_API/REST_Controller.php:252-256 | a kept entry's role goes through sanitize_text_field and its content through sanitize_textarea_field; an array role or content becomes '' |
| RestController.BuildMessages | inc/REST_API/REST_Controller.php:239-264 | one system turn first, the user message last, the kept history turns in between, length 2 + kept turns |
| RestController.ChatRequest | inc/REST_API/REST_Controller.php:374-394 | POST to the chat-completions URL with the bearer key, a 30 s timeout and a body of exactly model, messages, temperature and max_tokens, whatever the model |
| RestController.NormalizeChatReply | inc/REST_API/REST_Controller.php:396-414 | a transport error passes through; a non-200 status gives openai_error with error.message or the generic text; a 200 without choices[0].message.content gives the invalid-response error; success iff 200 with content, and the result is that content |
| RestController.HandleChat | inc/REST_API/REST_Controller.php:205-292 | an empty message gives 400 with nothing sent and the cache untouched; a missing key gives 400 likewise; otherwise exactly one request, built from the settings (defaults gpt-3.5-turbo, 0.7, 1000) and the listing context, whose normalised reply is the response |
| RestController.RenderContextAppend | inc/REST_API/REST_Controller.php:315-321 | the context of a concatenation is the concatenation of the contexts: blocks keep the listing order |
| RestController.RenderContextSmall | inc/REST_API/REST_Controller.php:313-323 | no listings give ''; one listing gives "Title: T\nContent: C\n\n" with C tag-stripped |
| RestController.HistoryTurnsAppend | inc/REST_API/REST_Controller.php:251-258 | history turns of a concatenation are those of each part in order |
| RestController.MalformedEntryDropped | inc/REST_API/REST_Controller.php:252-257 | an entry missing role or content contributes no turn, wherever it sits |
| RestController.WellFormedEntryKept | inc/REST_API/REST_Controller.php:252-257 | an entry with both role and content contributes exactly its sanitised turn, in its place |
| RestController.RestSaveKeepsOtherSettings | inc/REST_API/REST_Controller.php:179-188 | a POST /settings save leaves every stored non-null field other than the five chat fields as it was |
| RestController.MaskedKeyRoundTrip | inc/REST_API/REST_Controller.php:162-165 | posting back the masked key that GET /settings returned keeps the stored key |
| RestController.OmittedPromptUsesBuiltInSentence | inc/REST_API/REST_Controller.php:182 | after a save that omits system_prompt, the chat uses the built-in sentence, not the longer default |
| RestController.ArrayApiKeyKeepsStoredKey | inc/REST_API/REST_Controller.php:181 | an array posted as api_key is sanitised to '', so the stored key is kept |
| Settings.ApiKeyToStore | inc/Settings/Settings_Manager.php:89-103 | an absent, empty or masked key keeps the stored one; a new sk- key is encrypted; any other value is kept as given |
| Settings.SecretToStore | inc/Settings/Settings_Manager.php:105-118 | an absent, empty or masked secret keeps the stored one; any other value is encrypted, already encrypted or not |
| Settings.SavedOption | inc/Settings/Settings_Manager.php:120-123 | the saved keys are the current and the input keys; input values overwrite, other current values are kept, the two secrets take their rewritten values |
| Settings.DecryptApiKey | inc/Settings/Settings_Manager.php:164-187 | '' for an empty value, an sk- key unchanged, anything else through the cipher |
| Settings.DecryptedSetting | inc/Settings/Settings_Manager.php:204-213 | '' when the setting is empty, else its decryption |
| Settings.DecryptIfSet | inc/Vector/Vector_Service_Manager.php:166-170 | an empty value is kept as it is, a non-empty one is decrypted, and an sk- string comes back unchanged |
| Settings.SecretKey | inc/Vector/Vector_Query.php:165-176 | '' when no secret is stored; otherwise decrypt_api_key of the stored secret: an sk- secret as it is, any other string through the cipher |
| Settings.SettingsManager.constructor | inc/Settings/Settings_Manager.php:75 | the manager holds the stored option |
| Settings.SettingsManager.GetSettings | inc/Settings/Settings_Manager.php:53-78 | every default key is present and a stored value overrides the default for its key |
| Settings.SettingsManager.GetSetting | inc/Settings/Settings_Manager.php:133-136 | the merged value when it is set (not null), else the default given |
| Settings.SettingsManager.ApiKey | inc/Settings/Settings_Manager.php:204-213 | '' when no key is stored, else the decrypted stored key |
| Settings.SettingsManager.SaveSettings | inc/Settings/Settings_Manager.php:86-124 | the option becomes the saved merge of the current settings and the input; the result says whether the stored value changed |
| Settings.SaveThenApiKey | inc/Settings/Settings_Manager.php:96-98 | a new sk- key saved is what get_api_key returns afterwards, when decryption inverts encryption |
| Settings.SaveMaskedKeepsApiKey | inc/Settings/Settings_Manager.php:90-94 | a save with an empty or masked key keeps the key get_api_key returns |
| VectorQuery.BaseUrl | inc/Vector/Vector_Query.php:53 | the configured vector_api_base_url ('' when unset) with exactly its trailing '/' characters removed |
| VectorQuery.QueryRequest | inc/Vector/Vector_Query.php:61-80 | POST to base + /api/v1/vectors/query with the secret header, a body of exactly text and top_k, and no filter |
| VectorQuery.QueryOutcome | inc/Vector/Vector_Query.php:82-106 | a transport error passes through; a non-200 status gives api_error naming the status; a 200 without an array results gives invalid_response; otherwise results unchanged |
| VectorQuery.Query | inc/Vector/Vector_Query.php:51-107 | missing credentials (after trimming the URL) give missing_credentials and no request; otherwise one request and its checked outcome |
| VectorQuery.SubmissionFormFields | inc/Vector/Vector_Query.php:184-224 | '' unless the first listing type has a form with fields; otherwise the field lines in order, trimmed |
| VectorQuery.HitPost | inc/Vector/Vector_Query.php:121-146 | a hit names a post only when that post is a published listing of the site with the hit's id |
| VectorQuery.ListingsFrom | inc/Vector/Vector_Query.php:115-158 | never more entries than hits; every entry is that of a published listing of the site |
| VectorQuery.GetListingsFromQueryResults | inc/Vector/Vector_Query.php:115-158 | the loop's entries are exactly the mapping of the hits in order |
| VectorQuery.ListingsFromAppend | inc/Vector/Vector_Query.php:119-155 | hits map to entries independently, and in order |
| VectorQuery.UnpublishedHitDropped | inc/Vector/Vector_Query.php:132-146 | a hit naming no published listing contributes nothing |
| VectorQuery.ZeroIdHitDropped | inc/Vector/Vector_Query.php:121-130 | a hit without post_id or metadata.post_id has id 0, and a hit with id 0 is skipped |
| VectorQuery.PublishedHitKept | inc/Vector/Vector_Query.php:122-154 | a hit naming a published listing by either id field yields that listing's entry |
| VectorQuery.SlashOnlyBaseSendsNothing | inc/Vector/Vector_Query.php:53-58 | a base URL made only of slashes counts as unset: no request is sent |
| VectorSync.ListingText | inc/Vector/Vector_Sync.php:162-174 | the text is trimmed; with empty content it is the trimmed stripped title; when the stripped title starts and the stripped content ends with a non-whitespace character it is exactly title + blank line + content |
| VectorSync.TermNames | inc/Vector/Vector_Sync.php:191-196 | '' when the term lookup fails or finds nothing |
| VectorSync.Names | inc/Vector/Vector_Sync.php:191 | the names of the terms, one per term, in order |
| VectorSync.ListingMetadata | inc/Vector/Vector_Sync.php:182-212 | exactly the keys category and type, each the term names of its taxonomy |
| VectorSync.UpsertPayload | inc/Vector/Vector_Sync.php:109-113 | exactly post_id, text and metadata |
| VectorSync.UpsertRequest | inc/Vector/Vector_Sync.php:118-130 | POST to base + /api/v1/vectors/upsert with the secret header, the payload and a 30 s timeout |
| VectorSync.UpsertOutcome | inc/Vector/Vector_Sync.php:132-153 | success iff the status is 200 or 201; a transport error passes through; any other status gives api_error naming it |
| VectorSync.UpsertExchange | inc/Vector/Vector_Sync.php:96-154 | missing credentials give missing_credentials with nothing sent; otherwise exactly the upsert request and its outcome |
| VectorSync.MarkSynced | inc/Vector/Vector_Sync.php:150-151 | the post's flag becomes 1 and its date the time given; every other post and meta key is unchanged |
| VectorSync.UpsertListing | inc/Vector/Vector_Sync.php:96-154 | sends what UpsertExchange says; the meta is marked only on success and unchanged on every error path |
| VectorSync.HandlePostSave | inc/Vector/Vector_Sync.php:51-87 | a failed guard (wrong type, autosave, revision, trash, sync off, missing credentials) sends nothing and changes no meta; otherwise the upsert is performed |
| VectorSync.CategoryRoundTrip | inc/Vector/Vector_Sync.php:191-196 | splitting the category string on ', ' recovers the term names when no name contains ', ' |
| VectorSync.SlashBaseSyncsNothing | inc/Vector/Vector_Sync.php:78-103 | any non-empty base URL made only of slashes passes the hook's untrimmed guard, but the upsert sends nothing and fails |
| VectorSync.MarkSyncedIdempotent | inc/Vector/Vector_Sync.php:150-151 | marking a post twice at the same time is the same as marking it once |
| VectorServiceManager.ServiceNameOf | inc/Vector/Services/WpXplore_Service.php:20-22 | the display name is 'WpXplore' or 'Pinecone', never a lowercase registry key |
| VectorServiceManager.RequestedName | inc/Vector/Vector_Service_Manager.php:103-105 | the argument, else the stored vector_service, else 'wpxplore' |
| VectorServiceManager.ServiceSettings | inc/Vector/Vector_Service_Manager.php:157-188 | wpxplore: base URL and secret (decrypted only when non-empty); pinecone: key (decrypted only when non-empty), environment and index_name from pinecone_index_name when non-null, else vector_index_name, else ''; any other name: no settings |
| VectorServiceManager.Manager.constructor | inc/Vector/Vector_Service_Manager.php:65-75 | the registry holds the two built-in services and no instance is cached |
| VectorServiceManager.Manager.GetService | inc/Vector/Vector_Service_Manager.php:100-148 | a cache hit returns the cached instance; an unregistered name gives invalid_service naming it; an initialise error is returned; every error keeps the cached instance, and success caches the new one |
| VectorServiceManager.RegistryKeysNeverHitCache | inc/Vector/Vector_Service_Manager.php:107-110 | asking by a registry key never returns the cached instance |
| VectorServiceManager.ServiceSettingsMatchRequired | inc/Vector/Vector_Service_Manager.php:160-184 | each built-in service's settings carry exactly its required fields |
| VectorServiceManager.PlaintextSecretPassesThrough | inc/Vector/Vector_Service_Manager.php:163-170 | a stored sk- secret reaches the WpXplore service unchanged |
| Pinecone.Upsert | inc/Vector/Services/Pinecone_Service.php:52-76 | one call to /vectors/upsert with the single record {id, values, metadata}; true on success, the error passed through |
| Pinecone.BatchRecords | inc/Vector/Services/Pinecone_Service.php:87-94 | one record per input, in input order |
| Pinecone.BatchUpsert | inc/Vector/Services/Pinecone_Service.php:84-111 | one call carrying the records of all inputs in order; true on success, the error passed through |
| Pinecone.Delete | inc/Vector/Services/Pinecone_Service.php:119-137 | one call to /vectors/delete with ids = [id]; true on success, the error passed through |
| Pinecone.BatchDelete | inc/Vector/Services/Pinecone_Service.php:145-163 | one call to /vectors/delete with the ids unchanged; true on success, the error passed through |
| Pinecone.QueryBody | inc/Vector/Services/Pinecone_Service.php:176-184 | vector, topK and includeMetadata true, plus filter exactly when it is non-empty |
| Pinecone.MatchRecords | inc/Vector/Services/Pinecone_Service.php:203-209 | one normalised match per match, in order |
| Pinecone.Query | inc/Vector/Services/Pinecone_Service.php:173-213 | one call to /query; an error passes through; otherwise the normalised matches, [] when there are none |
| Pinecone.QueryByText | inc/Vector/Services/Pinecone_Service.php:223-230 | not_supported for every input, with nothing sent |
| Pinecone.BaseUrlShape | inc/Vector/Services/Pinecone_Service.php:38-42 | the base URL is exactly https:// + index name + '-' + environment + .svc.pinecone.io (each part at its position, and its length the sum) |
| Pinecone.BatchRecordDefaultsMetadata | inc/Vector/Services/Pinecone_Service.php:92 | an input without metadata gives a record with empty metadata |
| Pinecone.MatchRecordDefaults | inc/Vector/Services/Pinecone_Service.php:205-207 | a match whose id, score and metadata are absent or null normalises to '', 0 and empty metadata |
| Pinecone.BatchRecordsAppend | inc/Vector/Services/Pinecone_Service.php:88-94 | the records of a concatenation are those of each part in order |
| WpXplore.BaseUrl | inc/Vector/Services/WpXplore_Service.php:42 | the configured api_base_url with exactly its trailing '/' characters removed |
| WpXplore.UpsertBody | inc/Vector/Services/WpXplore_Service.php:48-52 | exactly post_id = intval(id), text = metadata's text or '', and the metadata |
| WpXplore.Upsert | inc/Vector/Services/WpXplore_Service.php:41-65 | one POST to the upsert path with that body; true on success, the error passed through |
| WpXplore.BatchUpsert | inc/Vector/Services/WpXplore_Service.php:73-94 | one POST to the batch-upsert path with the records unchanged under vectors; true on success, the error passed through |
| WpXplore.Delete | inc/Vector/Services/WpXplore_Service.php:102-118 | one DELETE of the url-encoded id, with no body; true on success, the error passed through |
| WpXplore.BatchDelete | inc/Vector/Services/WpXplore_Service.php:126-147 | one POST to the batch-delete path with the ids unchanged; true on success, the error passed through |
| WpXplore.QueryBody | inc/Vector/Services/WpXplore_Service.php:163-167 | exactly the probe, top_k and filter, the filter sent even when empty |
| WpXplore.QueryResults | inc/Vector/Services/WpXplore_Service.php:177-183 | an error passes through; otherwise results when set, else an empty array, never an error |
| WpXplore.Query | inc/Vector/Services/WpXplore_Service.php:157-184 | one POST to the query path with the vector as probe; the error passed through, otherwise the results or [] |
| WpXplore.QueryByText | inc/Vector/Services/WpXplore_Service.php:194-221 | one POST to the query path with the text as probe; the error passed through, otherwise the results or [] |
| WpXplore.SingleSlashJoin | inc/Vector/Services/WpXplore_Service.php:42-45 | exactly one '/' joins the base URL and an endpoint path, whatever the configured URL ends with |
| WpXplore.UpsertIgnoresVector | inc/Vector/Services/WpXplore_Service.php:41-52 | the vector argument of upsert is never sent |
| WpXplore.UpsertTextDefault | inc/Vector/Services/WpXplore_Service.php:50 | the text sent is the metadata's text when set, else '' |
| Wp.Delegate | inc/Vector/Services/WpXplore_Service.php:55-64 | exactly one call; true iff it succeeds, its error otherwise |
| AbstractEmbedding.FirstMissing | inc/Embedding/Services/Abstract_Embedding_Service.php:39-52 | none iff every required field is non-empty; otherwise the position of an empty field with every earlier field set |
| AbstractEmbedding.Validation | inc/Embedding/Services/Abstract_Embedding_Service.php:38-55 | true iff every required field is non-empty, else missing_setting |
| AbstractEmbedding.ValidationNamesFirstEmpty | inc/Embedding/Services/Abstract_Embedding_Service.php:39-52 | the field reported is the first empty one in declared order |
| AbstractEmbedding.SettingOr | inc/Embedding/Services/Abstract_Embedding_Service.php:64-66 | the stored value, or the default when the key is absent or null |
| AbstractEmbedding.ServiceRequest | inc/Embedding/Services/Abstract_Embedding_Service.php:78-88 | the body is attached iff it is non-empty; the timeout is always 30 |
| AbstractEmbedding.NormalizeResponse | inc/Embedding/Services/Abstract_Embedding_Service.php:90-110 | a transport error passes through; success iff 200 or 201, with the decoded body; otherwise api_error with error.message if present, else the status message |
| AbstractEmbedding.MakeRequest | inc/Embedding/Services/Abstract_Embedding_Service.php:77-111 | exactly one request, and its normalised response |
| OpenAIEmbedding.DimensionsOf | inc/Embedding/Services/OpenAI_Embedding_Service.php:39-48 | always 1536 or 3072, and 3072 exactly for text-embedding-3-large |
| OpenAIEmbedding.Embeddings | inc/Embedding/Services/OpenAI_Embedding_Service.php:104-110 | no more embeddings than items, none of them null, one per item when every item has one |
| OpenAIEmbedding.EmbeddingsBody | inc/Embedding/Services/OpenAI_Embedding_Service.php:78-86 | exactly input = the texts unchanged and model = the configured model or text-embedding-ada-002 |
| OpenAIEmbedding.BatchEmbedding | inc/Embedding/Services/OpenAI_Embedding_Service.php:73-113 | no texts give [] with nothing sent; otherwise one POST; an error passes through; otherwise the collected embeddings |
| OpenAIEmbedding.FirstEmbedding | inc/Embedding/Services/OpenAI_Embedding_Service.php:59-64 | an error passes through; the first embedding when there is one, else no_embedding |
| OpenAIEmbedding.Service.constructor | inc/Embedding/Services/Abstract_Embedding_Service.php:20 | a new service holds no settings |
| OpenAIEmbedding.Service.Initialize | inc/Embedding/Services/Abstract_Embedding_Service.php:28-31 | the settings are stored and the result is exactly their validation |
| OpenAIEmbedding.Service.ValidateSettings | inc/Embedding/Services/Abstract_Embedding_Service.php:38-55 | the loop's result is the validation of the stored settings against api_key and model |
| OpenAIEmbedding.Service.GetSetting | inc/Embedding/Services/Abstract_Embedding_Service.php:64-66 | the stored value, or the default when absent or null |
| OpenAIEmbedding.Service.GetDimensions | inc/Embedding/Services/OpenAI_Embedding_Service.php:38-49 | 1536 or 3072, 3072 exactly when the configured model is text-embedding-3-large |
| OpenAIEmbedding.Service.BatchEmbed | inc/Embedding/Services/OpenAI_Embedding_Service.php:73-113 | the loop sends and returns what BatchEmbedding says |
| OpenAIEmbedding.Service.Embed | inc/Embedding/Services/OpenAI_Embedding_Service.php:57-65 | batch_embed of the one text, then its first embedding or no_embedding |
| OpenAIEmbedding.EmbeddingsAppend | inc/Embedding/Services/OpenAI_Embedding_Service.php:104-110 | the embeddings of a concatenation are those of each part in order |
| OpenAIEmbedding.ItemWithoutEmbeddingSkipped | inc/Embedding/Services/OpenAI_Embedding_Service.php:105-109 | a data item without an embedding contributes nothing |
| OpenAIEmbedding.EmbedFirstItem | inc/Embedding/Services/OpenAI_Embedding_Service.php:57-65 | when the request succeeds and the first data item has an embedding, embed returns exactly it |
| OpenAIEmbedding.EmbeddingsNonEmpty | inc/Embedding/Services/OpenAI_Embedding_Service.php:104-110 | the collected embeddings are non-empty exactly when some data item carries an embedding |
| OpenAIEmbedding.EmbedSucceedsIffSomeEmbedding | inc/Embedding/Services/OpenAI_Embedding_Service.php:57-65 | embed succeeds exactly when the single request succeeds and some data item, not necessarily the first, carries an embedding |
| EmbeddingServiceManager.RequestedName | inc/Embedding/Embedding_Service_Manager.php:98-100 | the argument, else the stored embedding_service, else 'openai' |
| EmbeddingServiceManager.ServiceSettings | inc/Embedding/Embedding_Service_Manager.php:152-170 | openai: the key (decrypted only when non-empty) and the model or text-embedding-ada-002; any other name: no settings |
| EmbeddingServiceManager.Manager.constructor | inc/Embedding/Embedding_Service_Manager.php:64-70 | the registry holds the OpenAI service and no service is cached |
| EmbeddingServiceManager.Manager.GetService | inc/Embedding/Embedding_Service_Manager.php:95-143 | a cache hit returns the cached service; an unregistered name gives invalid_service naming it; a validation error is returned with the cache kept; success caches and returns a new service holding the mapped settings |
| EmbeddingServiceManager.MissingKeyRejected | inc/Embedding/Embedding_Service_Manager.php:156-166 | with no embedding key stored, get_service fails on api_key |
| EmbeddingServiceManager.PlaintextKeyDefaultModelAccepted | inc/Embedding/Embedding_Service_Manager.php:156-166 | a stored sk- key and no stored model pass validation, the default model filling the second field |
| EmbeddingServiceManager.RegistryKeyNeverHitsCache | inc/Embedding/Embedding_Service_Manager.php:103-105 | asking for 'openai' never returns the cached service |

## Left out

- HTTP transport, JSON encoding and decoding: the response is an input (`Transport` or `Http` with the decoded body); a body that fails to decode is whatever value the transport hands over.
- Encryption: base64, AES-256-CBC, the random IV and the key hash are the uninterpreted `encrypt`/`decrypt` of `Php.Lib`; `Settings.CipherBehaves` names the properties the key lemmas assume of them, and no round trip of the real cipher is proved.
- Sanitisers, `wp_strip_all_tags`, `wp_kses_post`, `urlencode`, `intval`/`floatval`/`is_numeric` of strings and float-to-string formatting are uninterpreted library routines.
- SaveSettingsInput: an array `system_prompt` reaches `wp_kses_post` as its string form "Array" (WordPress's kses filter would return an array there), and `floatval` of an array is the uninterpreted `floatval`; arrays given to `sanitize_text_field`/`sanitize_textarea_field` are modelled, as ''.
- `RestController.HandleChat`: the stored model and max_tokens reach `call_openai_api`'s typed `string`/`int` parameters through the string conversion and `intval` (`Text`, `IntVal`), and temperature as it is stored; the `TypeError` PHP raises for an array model, or for a non-numeric max_tokens or temperature, is not modelled. Settings saved through POST /settings are already of those types.
- Temperature is passed through as an opaque value; no float arithmetic or coercion to float is modelled.
- The one-hour expiry of the listing transient and the cache key are not modelled; the transient is a slot read before querying.
- `error_log`, translation (`__`) and the `apply_filters` registry extension are left out: messages are the untranslated literals and both registries are the built-in ones.
- `class_exists` in both `get_service` methods: the built-in classes always exist, so the `service_class_not_found` branch is not modelled.
- `get_available_services` of both managers is a plain getter of the `availableServices` field and has no member of its own.
- The singletons (`get_instance`) are not modelled; each manager is an object created by its constructor.
- Route registration, the permission callback, `get_listings` (GET /listings, which returns the dump unchanged) and the hook wiring are WordPress plumbing; the validators and handlers are modelled as functions and methods.
- `Abstract_Vector_DB_Service` is not part of this model: the vector back ends take its `get_setting` and `make_request` as parameters, and the vector manager takes its `initialize`.
- The order of keys in the settings option is not modelled (a map), nor the JSON key order of the saved record.
- `VectorQuery.SubmissionFormFields`: the line order is fixed by the definition of the field lines, with no separate lemma splitting a field list.
- `VectorSync.HandlePostSave`: the unused `$update` argument is not a parameter; `DOING_AUTOSAVE`, `wp_is_post_revision` and `wp_is_post_autosave` are booleans of the save event.
- The ATBDP_* constants take their fallback literals ('at_biz_dir', 'at_biz_dir_types', 'at_biz_dir-category').
- The PHP default arguments of the vector back ends (`$metadata = array()` of `upsert`, `$top_k = 5` and `$filter = array()` of `query` and `query_by_text`) are not modelled: every argument is an explicit parameter, and no modelled caller omits one.
- `Embedding_Service_Interface` and `Vector_DB_Service_Interface` carry no behaviour; the concrete classes are modelled directly.
