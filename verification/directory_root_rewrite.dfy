/**
 The Lambda@Edge origin-request handler that maps a directory-style URI
 (one ending in `/`) to the index document inside that directory.
 */
module DirectoryRootRewrite {
  import opened JsValues

  const IndexDocument: string := "index.html"

  datatype Option<T> = None | Some(value: T)

  /** A CloudFront request. `uri` is `None` when the field is absent; the
      handler reads no other field, so the rest is carried as one opaque map. */
  datatype Request = Request(uri: Option<string>, otherFields: map<string, string>)

  /** One CloudFront record of the Lambda@Edge event. */
  datatype EdgeRecord = EdgeRecord(request: Request)

  /** The arguments of one invocation of the handler's callback. */
  datatype Callback = Callback(error: JsValue, result: Request)

  /** The guard `req.uri && req.uri.length && req.uri.substring(len - 1) === '/'`:
      a non-empty URI whose last character is a slash. */
  predicate IsDirectoryUri(uri: string)
  {
    |uri| > 0 && uri[|uri| - 1] == '/'
  }

  /** The URI rewrite on a present URI. The input is always a prefix of the
      output; the output differs exactly for a directory URI, and then by the
      index document appended, so the length grows by exactly 0 or 10. */
  function RewriteUri(uri: string): (r: string)
    ensures uri <= r
    ensures r != uri <==> IsDirectoryUri(uri)
    ensures r != uri ==> r[|uri|..] == IndexDocument
    ensures |r| == |uri| || |r| == |uri| + 10
  {
    if IsDirectoryUri(uri) then uri + IndexDocument else uri
  }

  /** The rewrite applied to a request: only `uri` may change. */
  function RewriteRequest(req: Request): (r: Request)
    ensures r.otherFields == req.otherFields
    ensures r.uri.None? <==> req.uri.None?
    ensures req.uri.Some? ==> r.uri == Some(RewriteUri(req.uri.value))
  {
    match req.uri
    case None => req
    case Some(u) => req.(uri := Some(RewriteUri(u)))
  }

  /** `handler(evt, context, cb)`: take `evt.Records[0].cf.request`, rewrite it
      and hand it to the callback. With no record, `Records[0]` is `undefined`
      and reading `.cf` from it throws before the callback is reached. */
  function Handle(records: seq<EdgeRecord>): (r: Completion<seq<Callback>>)
    ensures r.Abrupt? <==> records == []
    ensures r.Normal? ==> |r.value| == 1
    ensures r.Normal? ==> r.value[0].error == Null
    ensures r.Normal? ==> r.value[0].result == RewriteRequest(records[0].request)
  {
    if records == [] then Abrupt(TypeError)
    else Normal([Callback(Null, RewriteRequest(records[0].request))])
  }

  /** A rewritten URI never ends in a slash: it ends in the last letter of the
      index document. */
  lemma RewrittenUriIsNotDirectory(uri: string)
    requires IsDirectoryUri(uri)
    ensures !IsDirectoryUri(RewriteUri(uri))
  {
    var r := RewriteUri(uri);
    assert r[|r| - 1] == 'l';
  }

  /** Applying the rewrite twice is the same as applying it once. */
  lemma RewriteIdempotent(uri: string)
    ensures RewriteUri(RewriteUri(uri)) == RewriteUri(uri)
  {
    if IsDirectoryUri(uri) {
      RewrittenUriIsNotDirectory(uri);
    }
  }

  /** Absent, empty and non-directory URIs pass through unchanged, so the
      whole request is returned as it came. */
  lemma NonDirectoryRequestsPassThrough(req: Request)
    requires req.uri.None? || !IsDirectoryUri(req.uri.value)
    ensures RewriteRequest(req) == req
  {
  }

  /** What the callback receives for a directory URI: the first record's
      request with `index.html` appended to its URI and every other field
      as it came. */
  lemma HandleServesIndexDocument(records: seq<EdgeRecord>)
    requires records != [] && records[0].request.uri.Some?
    requires IsDirectoryUri(records[0].request.uri.value)
    ensures Handle(records).Normal?
    ensures var cb := Handle(records).value[0];
            && cb.error == Null
            && cb.result.uri == Some(records[0].request.uri.value + IndexDocument)
            && cb.result.otherFields == records[0].request.otherFields
  {
  }

  /** The request rewrite is idempotent too. */
  lemma RewriteRequestIdempotent(req: Request)
    ensures RewriteRequest(RewriteRequest(req)) == RewriteRequest(req)
  {
    if req.uri.Some? {
      RewriteIdempotent(req.uri.value);
    }
  }
}
