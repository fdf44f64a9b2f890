/** The two calls the utility makes against the feed service's API
    (main.go:40-65, 102-169): listing the user's subscriptions and deleting
    one. Every network interaction is replaced by the reply it produced; the
    functions return what the Go functions return together with the calls
    they made into the HTTP client. */
module Api {
  import opened Util
  import opened Decimal

  /** Account and target service, built once at start-up (main.go:40-45). */
  datatype Credentials = Credentials(username: string, password: string, baseUrl: string, dryRun: bool)

  /** One subscription as the list endpoint returns it (main.go:56-63).
      `createdAt` holds the timestamp text; time parsing is not modelled. */
  datatype Subscription = Subscription(
    id: int, createdAt: string, feedId: int, title: string, feedUrl: string, siteUrl: string)

  /** The default of the `-baseurl` flag (main.go:26). */
  const DefaultBaseUrl: string := "https://api.feedbin.com/v2/"

  const StatusOK: int := 200
  const StatusNoContent: int := 204

  datatype HttpMethod = Get | Delete

  datatype BasicAuth = BasicAuth(username: string, password: string)

  /** One call into the HTTP client: method, target and credentials sent. */
  datatype Request = Request(verb: HttpMethod, url: string, auth: Option<BasicAuth>)

  /** The errors the two calls return. `RequestError` stands for a target the
      URL parser or request builder rejects; `ApiError` carries the status and
      body that the Go error message is formatted from. */
  datatype Error =
    | RequestError
    | TransportError
    | ReadError
    | ApiError(status: int, body: string)
    | DecodeError

  const ListPath: string := "/subscriptions.json"
  const DeletePathPrefix: string := "/subscriptions/"
  const JsonSuffix: string := ".json"

  /** Target of the list call: base URL, then "/subscriptions.json". */
  function ListUrl(base: string): (u: string)
    ensures |u| == |base| + |ListPath|
    ensures u[..|base|] == base && u[|base|..] == ListPath
  {
    base + ListPath
  }

  /** Target of the delete call: base URL, "/subscriptions/", the id in
      decimal, ".json". */
  function DeleteUrl(base: string, id: int): (u: string)
    ensures |u| == |base| + |DeletePathPrefix| + |FormatInt(id)| + |JsonSuffix|
    ensures u[..|base| + |DeletePathPrefix|] == base + DeletePathPrefix
    ensures u[|u| - |JsonSuffix|..] == JsonSuffix
  {
    base + DeletePathPrefix + FormatInt(id) + JsonSuffix
  }

  /** The id a delete target names, if it is one for this base URL. */
  function DeleteUrlId(base: string, u: string): (id: Option<int>)
  {
    var pre := base + DeletePathPrefix;
    if |u| >= |pre| + |JsonSuffix| && u[..|pre|] == pre && u[|u| - |JsonSuffix|..] == JsonSuffix
    then ParseInt(u[|pre|..|u| - |JsonSuffix|])
    else None
  }

  function ListRequest(cred: Credentials): Request {
    Request(Get, ListUrl(cred.baseUrl), Some(BasicAuth(cred.username, cred.password)))
  }

  function DeleteRequest(cred: Credentials, sub: Subscription): Request {
    Request(Delete, DeleteUrl(cred.baseUrl, sub.id), Some(BasicAuth(cred.username, cred.password)))
  }

  /** What JSON decoding of the list body produced; the decoder itself is
      opaque. On failure Go leaves a partially filled slice behind. */
  datatype Decoding = Decoded(subs: seq<Subscription>) | DecodeFailed(partial: seq<Subscription>)

  /** How the list call went. `ListReadFailed` is a response whose body could
      not be read; it carries the status that came with it. */
  datatype ListReply =
    | ListRequestRejected
    | ListTransportFailed
    | ListReadFailed(status: int)
    | ListResponse(status: int, body: string, decoding: Decoding)

  /** Go's `(Subscriptions, error)` pair plus the client calls made. */
  datatype Listing = Listing(subs: seq<Subscription>, err: Option<Error>, calls: seq<Request>)

  /** `GetSubscriptions` (main.go:102-136). */
  function GetSubscriptions(cred: Credentials, reply: ListReply): (r: Listing)
    // success exactly on status 200 with a body that decodes
    ensures r.err.None? <==> reply.ListResponse? && reply.status == StatusOK && reply.decoding.Decoded?
    ensures r.err.None? ==> r.subs == reply.decoding.subs
    // a list is only ever handed back after a 200
    ensures r.subs != [] ==> reply.ListResponse? && reply.status == StatusOK
    // error branches, in the order the code checks them
    ensures reply.ListRequestRejected? ==> r.err == Some(RequestError) && r.calls == []
    ensures !reply.ListRequestRejected? ==> r.calls == [ListRequest(cred)]
    ensures reply.ListTransportFailed? ==> r.err == Some(TransportError)
    ensures reply.ListReadFailed? ==> r.err == Some(ReadError)
    ensures reply.ListResponse? && reply.status != StatusOK ==>
              r.err == Some(ApiError(reply.status, reply.body))
    ensures reply.ListResponse? && reply.status == StatusOK && reply.decoding.DecodeFailed? ==>
              r.err == Some(DecodeError) && r.subs == reply.decoding.partial
  {
    match reply
    case ListRequestRejected => Listing([], Some(RequestError), [])
    case ListTransportFailed => Listing([], Some(TransportError), [ListRequest(cred)])
    case ListReadFailed(_) => Listing([], Some(ReadError), [ListRequest(cred)])
    case ListResponse(status, body, decoding) =>
      if status != StatusOK then Listing([], Some(ApiError(status, body)), [ListRequest(cred)])
      else
        match decoding
        case DecodeFailed(partial) => Listing(partial, Some(DecodeError), [ListRequest(cred)])
        case Decoded(subs) => Listing(subs, None, [ListRequest(cred)])
  }

  /** How the delete call went, as for `ListReply`. */
  datatype DeleteReply =
    | DeleteRequestRejected
    | DeleteTransportFailed
    | DeleteReadFailed(status: int)
    | DeleteResponse(status: int, body: string)

  /** Go's `error` result plus the client calls made. */
  datatype Removal = Removal(err: Option<Error>, calls: seq<Request>)

  /** `RemoveSubscription` (main.go:138-169). */
  function RemoveSubscription(cred: Credentials, sub: Subscription, reply: DeleteReply): (r: Removal)
    // a dry run reports success and touches nothing
    ensures cred.dryRun ==> r.err.None? && r.calls == []
    // otherwise success is exactly a 204
    ensures !cred.dryRun ==> (r.err.None? <==> reply.DeleteResponse? && reply.status == StatusNoContent)
    // at most one call, and it is the authenticated DELETE of this id
    ensures r.calls == [] || r.calls == [DeleteRequest(cred, sub)]
    ensures r.calls != [] <==> !cred.dryRun && !reply.DeleteRequestRejected?
    ensures !cred.dryRun && reply.DeleteRequestRejected? ==> r.err == Some(RequestError)
    ensures !cred.dryRun && reply.DeleteTransportFailed? ==> r.err == Some(TransportError)
    ensures !cred.dryRun && reply.DeleteReadFailed? ==> r.err == Some(ReadError)
    ensures !cred.dryRun && reply.DeleteResponse? && reply.status != StatusNoContent ==>
              r.err == Some(ApiError(reply.status, reply.body))
  {
    if cred.dryRun then Removal(None, [])
    else
      match reply
      case DeleteRequestRejected => Removal(Some(RequestError), [])
      case DeleteTransportFailed => Removal(Some(TransportError), [DeleteRequest(cred, sub)])
      case DeleteReadFailed(_) => Removal(Some(ReadError), [DeleteRequest(cred, sub)])
      case DeleteResponse(status, body) =>
        if status != StatusNoContent then Removal(Some(ApiError(status, body)), [DeleteRequest(cred, sub)])
        else Removal(None, [DeleteRequest(cred, sub)])
  }

  /** The delete target names the subscription's id and nothing else: the id
      can be read back from it. */
  lemma DeleteUrlRoundTrip(base: string, id: int)
    ensures DeleteUrlId(base, DeleteUrl(base, id)) == Some(id)
  {
    var u := DeleteUrl(base, id);
    var pre := base + DeletePathPrefix;
    assert u[|pre|..|u| - |JsonSuffix|] == FormatInt(id);
    FormatParseRoundTrip(id);
  }

  /** Different subscriptions are deleted through different targets. */
  lemma DeleteUrlInjective(base: string, a: int, b: int)
    requires a != b
    ensures DeleteUrl(base, a) != DeleteUrl(base, b)
  {
    DeleteUrlRoundTrip(base, a);
    DeleteUrlRoundTrip(base, b);
  }

  /** The list target is never a delete target under the same base URL. */
  lemma ListUrlIsNotDeleteUrl(base: string, id: int)
    ensures ListUrl(base) != DeleteUrl(base, id)
  {
  }

  /** With the default base URL, which already ends in '/', the list target
      contains a doubled slash: the concatenation does no joining. */
  lemma DefaultListUrlHasDoubledSlash()
    ensures ListUrl(DefaultBaseUrl) == "https://api.feedbin.com/v2//subscriptions.json"
  {
  }
}
