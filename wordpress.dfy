/** The WordPress runtime as the plugin sees it: WP_Error, outbound HTTP
    requests and their responses, posts and terms, post meta and the
    transient cache. Everything here is data handed to the core or state
    it updates; nothing is executed. */
module Wp {
  import opened Wrappers
  import opened Php

  /** A WP_Error: its code and its (already translated) message. */
  datatype Error = Error(code: string, message: string)

  /** A value or a WP_Error, the plugin's `T|WP_Error` return convention. */
  datatype Result<+T> = Ok(value: T) | Err(error: Error)

  /** An outbound request as handed to wp_remote_post / wp_remote_request;
      `body` is the array given to wp_json_encode, absent when no body is
      attached. */
  datatype Request = Request(
    url: string,
    verb: string,  // the HTTP method
    headers: seq<(string, string)>,
    body: Option<Value>,
    timeout: int)

  /** What the HTTP client returns: a transport-level WP_Error, or a status
      code with the body as json_decode(..., true) gives it (Null when it
      is not JSON). */
  datatype HttpResponse = Transport(error: Error) | Http(status: int, body: Value)

  /** The arguments of a vector service's make_request($url, $method,
      $headers, $body); `body` is None when the call omits the argument. */
  datatype ServiceCall = ServiceCall(
    url: string,
    verb: string,  // the HTTP method
    headers: seq<(string, string)>,
    body: Option<Value>)

  /** The result of an operation that may talk to the network, with every
      request it sent, in order. */
  datatype Exchange<+T> = Exchange(result: Result<T>, sent: seq<Request>)

  /** The result of a vector-service operation, with every make_request
      call it issued, in order. */
  datatype Delegated<+T> = Delegated(result: Result<T>, calls: seq<ServiceCall>)

  /** A vector-service call whose answer only matters as success or error
      (`is_wp_error( $response ) ? $response : true`). */
  function Delegate(makeRequest: ServiceCall -> Result<Value>, call: ServiceCall): (r: Delegated<bool>)
    ensures r.calls == [call]
    ensures r.result.Ok? <==> makeRequest(call).Ok?
    ensures r.result.Ok? ==> r.result.value
    ensures r.result.Err? ==> r.result.error == makeRequest(call).error
  {
    match makeRequest(call)
    case Err(e) => Delegated(Err(e), [call])
    case Ok(_) => Delegated(Ok(true), [call])
  }

  /** A WP_Post: the fields the core reads. */
  datatype Post = Post(id: int, postType: string, status: string, title: string, content: string)

  /** A taxonomy term: its id and its name. */
  datatype Term = Term(id: int, name: string)

  /** The read-only part of the site: the post table in WP_Query's order,
      the terms of each (post, taxonomy), term meta and permalinks. */
  datatype Site = Site(
    posts: seq<Post>,
    terms: map<(int, string), Result<seq<Term>>>,
    termMeta: map<int, map<string, Value>>,
    permalinks: map<int, string>)

  /** ATBDP_POST_TYPE, the Directorist listing post type. */
  const ListingPostType := "at_biz_dir"

  /** A published Directorist listing. */
  predicate IsPublishedListing(p: Post) {
    p.postType == ListingPostType && p.status == "publish"
  }

  /** get_post($id): the first post with that ID, if any. */
  function FindPost(posts: seq<Post>, id: int): (r: Option<Post>)
    ensures r.Some? ==> r.value in posts && r.value.id == id
    ensures r.None? ==> forall p | p in posts :: p.id != id
    decreases |posts|
  {
    if |posts| == 0 then None
    else if posts[0].id == id then Some(posts[0])
    else FindPost(posts[1..], id)
  }

  /** wp_get_post_terms($post_id, $taxonomy): the terms, or an error for a
      taxonomy that does not exist; a post with no entry has no terms. */
  function PostTerms(site: Site, postId: int, taxonomy: string): Result<seq<Term>> {
    if (postId, taxonomy) in site.terms then site.terms[(postId, taxonomy)] else Ok([])
  }

  /** get_term_meta($term_id, $key, true): '' when absent. */
  function TermMeta(site: Site, termId: int, key: string): Value {
    if termId in site.termMeta && key in site.termMeta[termId] then site.termMeta[termId][key] else Str("")
  }

  /** get_permalink($id): the URL, or false. */
  function Permalink(site: Site, id: int): Value {
    if id in site.permalinks then Str(site.permalinks[id]) else Bool(false)
  }

  /** get_post_meta($id, $key, true) over a meta table: '' when absent. */
  function MetaValue(meta: map<int, map<string, Value>>, postId: int, key: string): Value {
    if postId in meta && key in meta[postId] then meta[postId][key] else Str("")
  }

  /** The post meta table, which update_post_meta changes in place. */
  class MetaStore {
    var meta: map<int, map<string, Value>>

    constructor (initial: map<int, map<string, Value>>)
      ensures meta == initial
    {
      meta := initial;
    }
  }

  /** The transient holding the fallback listing dump (the constant key
      'directorist_smart_assistant_listings'); None when it is absent or
      expired. */
  class Transients {
    var listings: Option<seq<ListingRow>>

    constructor (initial: Option<seq<ListingRow>>)
      ensures listings == initial
    {
      listings := initial;
    }
  }

  /** One row of the full listing dump: id, title and raw content. */
  datatype ListingRow = ListingRow(id: int, title: string, content: string)
}
