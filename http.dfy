/** Requests and replies as the client sees them, and the decisions it takes
    on them: turning a path into a URL, the dry-run guard, the authorization
    header, and the classification of status codes (section 15 of RFC 9110).
    The transport itself is a function from request to reply. */
module Http {
  import opened Results
  import opened Wire

  datatype Method = GET | POST | PUT | PATCH | DELETE

  /** A status code as the transport reports it: three digits. */
  type StatusCode = s: int | 100 <= s <= 999 witness 200

  /** A link relation: `next`, or any other relation type. */
  datatype Relation = Next | Other(name: string)

  /** One entry of a `Link` header (section 3 of RFC 8288): its target and
      its relation types, if the entry has a `rel` parameter. */
  datatype Link = Link(url: string, rels: Option<seq<Relation>>)

  /** The `Link` header of a reply: absent, parsed, or not parsable. */
  datatype LinkHeader = NoLinkHeader | Links(links: seq<Link>) | MalformedLinkHeader

  /** A reply: its status, its decoded body and its `Link` header. */
  datatype Reply = Reply(status: StatusCode, body: Payload, link: LinkHeader)

  /** The variables of the two GraphQL queries the client runs. */
  datatype Variables =
    | NodeIds(ids: seq<string>)
    | TeamCursor(team: string, cursor: Option<string>)

  /** The body of a request, one shape per operation. */
  datatype Body =
    | NoBody
    | GraphQLBody(query: string, variables: Variables)
    | CreateTeamBody(name: string, description: string, privacy: TeamPrivacy)
    | EditTeamBody(newName: Option<string>, newDescription: Option<string>, newPrivacy: Option<TeamPrivacy>)
    | MembershipBody(role: TeamRole)
    | CreateRepoBody(name: string, description: string)
    | EditRepoBody(description: string)
    | PermissionBody(permission: RepoPermission)
    | CreateRefBody(ref: string, sha: string)
    | ProtectionBody(protection: ProtectionRequest)

  /** A request as it goes out: method, absolute URL, `Authorization` value, body. */
  datatype Request = Request(verb: Method, url: string, authorization: string, body: Body)

  /** The client's configuration, fixed when it is constructed. */
  datatype Config = Config(token: string, dryRun: bool)

  /** What the platform answers to a request, or a delivery failure. */
  type Transport = Request -> Result<Reply>

  /** The outcome of a step of the client together with the requests it sent, in order. */
  datatype Run<T> = Run(result: Result<T>, sent: seq<Request>)

  function After<T>(sent: seq<Request>, r: Run<T>): Run<T> {
    Run(r.result, sent + r.sent)
  }

  lemma AppendAssoc(a: seq<Request>, b: seq<Request>, c: seq<Request>)
    ensures (a + b) + c == a + (b + c)
  {
  }

  // ---------------------------------------------------------------------
  // URLs and the dry-run guard

  const Https: string := "https://"
  const ApiOrigin: string := "https://api.github.com/"
  const GraphQLPath: string := "graphql"

  predicate StartsWith(s: string, prefix: string) {
    |prefix| <= |s| && s[..|prefix|] == prefix
  }

  predicate Contains(s: string, part: string) {
    exists i :: 0 <= i <= |s| && StartsWith(s[i..], part)
  }

  /** An absolute `https://` URL is kept as it is; anything else is a path
      below the API origin. */
  function NormalizeUrl(url: string): (r: string)
    ensures StartsWith(r, Https)
    ensures StartsWith(url, Https) ==> r == url
    ensures !StartsWith(url, Https) ==> StartsWith(r, ApiOrigin) && r[|ApiOrigin|..] == url
  {
    if StartsWith(url, Https) then url else ApiOrigin + url
  }

  /** Normalising twice is normalising once. */
  lemma NormalizeUrlIdempotent(url: string)
    ensures NormalizeUrl(NormalizeUrl(url)) == NormalizeUrl(url)
  {
  }

  /** A request that may go out in dry-run mode: a GET, or a GraphQL call
      (GraphQL is used only for queries, although it travels as POST). */
  predicate SafeInDryRun(m: Method, url: string) {
    m == GET || Contains(url, "graphql")
  }

  /** The guard of `req`: in dry-run mode nothing unsafe may be built.
      `req` in `api.rs` panics otherwise; here it is a precondition. */
  predicate DryRunAllows(cfg: Config, m: Method, url: string) {
    !cfg.dryRun || SafeInDryRun(m, NormalizeUrl(url))
  }

  /** The GraphQL endpoint is a POST that the dry-run guard lets through. */
  lemma GraphQLEndpoint(cfg: Config)
    ensures NormalizeUrl(GraphQLPath) == ApiOrigin + GraphQLPath
    ensures DryRunAllows(cfg, POST, GraphQLPath)
    ensures SafeInDryRun(POST, ApiOrigin + GraphQLPath)
  {
    var u := ApiOrigin + GraphQLPath;
    assert u[|ApiOrigin|..] == GraphQLPath;
    assert StartsWith(u[|ApiOrigin|..], "graphql");
  }

  /** The characters a header value may hold: tab, and everything from space
      upwards except DEL (non-ASCII characters are multi-byte and allowed). */
  predicate ValidHeaderValue(s: string) {
    forall i :: 0 <= i < |s| ==> s[i] == '\t' || (s[i] as int >= 32 && s[i] as int != 127)
  }

  function Authorization(token: string): string {
    "token " + token
  }

  /** The token can be sent: `req` succeeds. */
  predicate HeaderOk(cfg: Config) {
    ValidHeaderValue(Authorization(cfg.token))
  }

  /** `req`: the request for a method, a path or URL, and a body. It fails
      only when the token cannot be put into a header. */
  function Req(cfg: Config, m: Method, url: string, body: Body): (r: Result<Request>)
    requires DryRunAllows(cfg, m, url)
    ensures r.Ok? <==> ValidHeaderValue(Authorization(cfg.token))
    ensures r.Err? ==> r.error == InvalidHeader
    ensures r.Ok? ==> r.value.verb == m && r.value.body == body
    ensures r.Ok? ==> r.value.url == NormalizeUrl(url) && r.value.authorization == Authorization(cfg.token)
    ensures r.Ok? && cfg.dryRun ==> SafeInDryRun(r.value.verb, r.value.url)
  {
    if ValidHeaderValue(Authorization(cfg.token)) then
      Ok(Request(m, NormalizeUrl(url), Authorization(cfg.token), body))
    else
      Err(InvalidHeader)
  }

  /** `req(...)?.send()`: build the request and hand it to the transport.
      Nothing is sent when the request cannot be built. */
  function Exchange(cfg: Config, t: Transport, m: Method, url: string, body: Body): (r: Run<Reply>)
    requires DryRunAllows(cfg, m, url)
    ensures |r.sent| <= 1
    ensures r.sent == [] <==> !ValidHeaderValue(Authorization(cfg.token))
    ensures r.sent == [] ==> r.result == Err(InvalidHeader)
    ensures r.sent != [] ==> r.sent == [Request(m, NormalizeUrl(url), Authorization(cfg.token), body)]
    ensures r.sent != [] ==> r.result == t(r.sent[0])
  {
    match Req(cfg, m, url, body)
    case Err(e) => Run(Err(e), [])
    case Ok(rq) => Run(t(rq), [rq])
  }

  // ---------------------------------------------------------------------
  // Status classification

  /** Client and server errors: 4xx and 5xx. */
  predicate IsErrorStatus(s: StatusCode) {
    400 <= s <= 599
  }

  /** `error_for_status`: a 4xx or 5xx reply becomes an error, any other passes. */
  function ErrorForStatus(reply: Reply): (r: Result<Reply>)
    ensures r.Err? <==> IsErrorStatus(reply.status)
    ensures r.Ok? ==> r.value == reply
    ensures r.Err? ==> r.error == HttpStatus(reply.status)
  {
    if IsErrorStatus(reply.status) then Err(HttpStatus(reply.status)) else Ok(reply)
  }

  /** `send`: exchange a request and reject error statuses. */
  function Checked(cfg: Config, t: Transport, m: Method, url: string, body: Body): (r: Run<Reply>)
    requires DryRunAllows(cfg, m, url)
    ensures r.sent == Exchange(cfg, t, m, url, body).sent
    ensures r.result.Ok? ==> !IsErrorStatus(r.result.value.status)
    ensures var e := Exchange(cfg, t, m, url, body).result;
      && (e.Err? ==> r.result == e)
      && (e.Ok? ==> r.result == ErrorForStatus(e.value))
  {
    var c := Exchange(cfg, t, m, url, body);
    match c.result
    case Err(e) => Run(Err(e), c.sent)
    case Ok(reply) => Run(ErrorForStatus(reply), c.sent)
  }

  /** What a fetch-style reply means: 200 is the decoded value, 404 is
      absence, every other status is an error. */
  function FetchOutcome<T>(reply: Reply, decode: Payload -> Option<T>): (r: Result<Option<T>>)
    ensures (r.Ok? && r.value.Some?) <==> reply.status == 200 && decode(reply.body).Some?
    ensures (r.Ok? && r.value.Some?) ==> r.value == decode(reply.body)
    ensures (r.Ok? && r.value.None?) <==> reply.status == 404
    ensures reply.status != 200 && reply.status != 404 ==> r == Err(HttpStatus(reply.status))
    ensures reply.status == 200 && decode(reply.body).None? ==> r == Err(Undecodable)
  {
    if reply.status == 200 then
      match decode(reply.body)
      case Some(v) => Ok(Some(v))
      case None => Err(Undecodable)
    else if reply.status == 404 then Ok(None)
    else Err(HttpStatus(reply.status))
  }

  /** `send_option`: exchange a request without a body and classify the reply. */
  function Fetch<T>(cfg: Config, t: Transport, m: Method, url: string, decode: Payload -> Option<T>): (r: Run<Option<T>>)
    requires DryRunAllows(cfg, m, url)
    ensures r.sent == Exchange(cfg, t, m, url, NoBody).sent
    ensures var e := Exchange(cfg, t, m, url, NoBody).result;
      && (e.Err? ==> r.result == Err(e.error))
      && (e.Ok? ==> r.result == FetchOutcome(e.value, decode))
  {
    var c := Exchange(cfg, t, m, url, NoBody);
    match c.result
    case Err(e) => Run(Err(e), c.sent)
    case Ok(reply) => Run(FetchOutcome(reply, decode), c.sent)
  }

  /** Either the operation returns, or the process panics. */
  datatype Verdict<T> = Returns(result: Result<T>) | Panics

  /** The status match of `send_option` as written: the catch-all arm
      unwraps the error of `error_for_status`, which is no error for a status
      outside 4xx and 5xx, so the unwrap panics there. */
  function FetchOutcomeAsWritten<T>(reply: Reply, decode: Payload -> Option<T>): Verdict<Option<T>> {
    if reply.status == 200 then
      Returns(match decode(reply.body) case Some(v) => Ok(Some(v)) case None => Err(Undecodable))
    else if reply.status == 404 then Returns(Ok(None))
    else
      match ErrorForStatus(reply)
      case Err(e) => Returns(Err(e))
      case Ok(_) => Panics
  }

  /** A 204 reply to a fetch panics as written. */
  lemma FetchPanicsOnNoContent<T>(body: Payload, link: LinkHeader, decode: Payload -> Option<T>)
    ensures FetchOutcomeAsWritten(Reply(204, body, link), decode) == Panics
  {
  }

  /** As written, the match agrees with the intended outcome exactly where it
      does not panic, and it panics exactly on the statuses other than 200 and
      404 that are not errors. */
  lemma FetchAsWrittenAgreesOrPanics<T>(reply: Reply, decode: Payload -> Option<T>)
    ensures FetchOutcomeAsWritten(reply, decode).Panics? <==>
              reply.status != 200 && reply.status != 404 && !IsErrorStatus(reply.status)
    ensures FetchOutcomeAsWritten(reply, decode).Returns? ==>
              FetchOutcomeAsWritten(reply, decode).result == FetchOutcome(reply, decode)
  {
  }

  /** The status match of `update_branch_protection`: 200 is applied, 404 is
      a missing branch, an error status is an error, and any other status
      falls through to `false`. */
  function ProtectionOutcome(reply: Reply): (r: Result<bool>)
    ensures r == Ok(true) <==> reply.status == 200
    ensures r == Ok(false) <==> reply.status == 404 || (reply.status != 200 && !IsErrorStatus(reply.status))
    ensures r.Err? <==> reply.status != 404 && IsErrorStatus(reply.status)
    ensures r.Err? ==> r.error == HttpStatus(reply.status)
  {
    if reply.status == 200 then Ok(true)
    else if reply.status == 404 then Ok(false)
    else
      match ErrorForStatus(reply)
      case Err(e) => Err(e)
      case Ok(_) => Ok(false)
  }
}
