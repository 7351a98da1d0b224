# GitHub API client — a Dafny model

This project models the GitHub client of the team-sync tool, the type that
reads and changes organizations, teams, team memberships, repositories,
collaborators and branch protections through GitHub's REST and GraphQL APIs
(`src/github/api.rs`).

The model has these parts:

- **Requests and replies** (`http.dfy`, module `Http`). A path becomes a URL
  below `https://api.github.com/`; an absolute `https://` URL is kept as it
  is. The dry-run guard lets through only GETs and GraphQL calls. The token
  goes into the `Authorization` header as `token <token>`. Status codes are
  classified the way `error_for_status` does it (4xx and 5xx are errors).
- **The transport** is a parameter: a total function from a request to a
  reply or a delivery failure. Every operation is specified by a function
  that returns its result together with the requests it sent (`Run`).
- **The client** (`client.dfy`, module `Client`) is a class `GitHub`. It
  has the configuration (token, dry-run flag), the transport, and a ghost
  `log` of every request handed to the transport. Each method of the
  source is a method here. Each one ensures that the log grows by exactly
  the requests of its specification function, and that its result is that
  function's result. Where the source loops, the method loops:
  - the pagination loop of `rest_paginated`;
  - the batches of `usernames`;
  - the page loop of `team_memberships`;
  - the `Link`-header scan;
  - the map insertions.
- **The dry-run guarantee.** In dry-run mode no request other than a GET or
  a GraphQL query goes out. Every skipped write sends nothing and returns
  the source's made-up value.
- **Pagination** (`pagination.dfy`). A paginated read follows the first
  `next` entry of each reply's `Link` header. What each reader collects is
  the fold of its per-page step over the pages.
- **GraphQL** (`graphql.dfy`):
  - the envelope: the first error wins, and missing data is an error;
  - the username lookup, in batches of 100 node ids;
  - the team-member walk along `endCursor`.
- **Node ids** (`node_id.dfy`): the base64 encoding of `04:User<id>` or
  `04:Team<id>`. This file proves the base64 round trip and the
  injectivity of the ids.
- **Wire values** (`wire.dfy`): the enumerations and their wire names, the
  records, and the body of a branch-protection update.

## Model

| member | source | states |
|---|---|---|
| Http.NormalizeUrl | src/github/api.rs:650-654 | the URL starts with `https://`; an `https://` URL is kept unchanged; anything else becomes `https://api.github.com/` followed by the path |
| Http.NormalizeUrlIdempotent | src/github/api.rs:650-654 | normalising an already normalised URL changes nothing |
| Http.Req | src/github/api.rs:649-670 | under the dry-run guard, building succeeds iff `token <token>` is a valid header value, and fails with an invalid-header error otherwise; the request carries the method, the normalised URL, the authorization value and the body; in dry-run mode a built request is always a GET or goes to a URL containing `graphql` |
| Http.GraphQLEndpoint | src/github/api.rs:656-658 | the GraphQL endpoint is `https://api.github.com/graphql`, and the guard lets a POST to it through in dry-run mode |
| Http.Exchange | src/github/api.rs:649-670 | at most one request is sent; nothing is sent exactly when the header cannot be built, and then the result is an invalid-header error; otherwise the one request sent has the method, the normalised URL, the `token <token>` authorization value and the body, and the result is the transport's answer to it |
| Http.ErrorForStatus | src/github/api.rs:678-682 | a reply is an error iff its status is 4xx or 5xx, and the error carries that status; any other reply passes unchanged |
| Http.Checked | src/github/api.rs:672-683 | `send` sends what the exchange sends; a transport or header error passes through unchanged; a reply becomes what `error_for_status` makes of it, so a success never has an error status |
| Http.FetchOutcome | src/github/api.rs:690-695 | 200 with a decodable body is the decoded value; 404 is absence; 200 with an undecodable body is a decoding error; every other status is an error with that status |
| Http.Fetch | src/github/api.rs:685-696 | `send_option` sends exactly one body-less request of the given method (or none if the header cannot be built); a transport or header error passes through; a reply is classified by `Http.FetchOutcome` (200 decoded, 404 absent, anything else an error) |
| Http.FetchAsWrittenAgreesOrPanics | src/github/api.rs:690-695 | the match as written panics exactly on a status other than 200 and 404 that is not an error status; everywhere else it agrees with `Http.FetchOutcome` |
| Http.FetchPanicsOnNoContent | src/github/api.rs:694 | a 204 reply makes the match as written panic |
| Http.ProtectionOutcome | src/github/api.rs:616-623 | `Ok(true)` iff the status is 200; `Ok(false)` iff the status is 404 or a non-error status other than 200; an error with the status iff the status is a 4xx/5xx other than 404 |
| GraphQL.Unwrap | src/github/api.rs:714-720 | success iff there are no errors and data is present, and then it is the data; otherwise the first error's message, or "missing data" when there are no errors |
| GraphQL.Query | src/github/api.rs:698-721 | one POST to the GraphQL endpoint with the query and variables, answered by the transport; nothing is sent and the result is an invalid-header error when the token cannot be a header |
| GraphQL.UserNodeIds | src/github/api.rs:57 | the ids of a batch become their user node ids, one for one and in order |
| GraphQL.NodePairs | src/github/api.rs:60 | the pairs inserted are exactly the (database id, login) pairs of the non-null nodes |
| GraphQL.InsertAllKeys | src/github/api.rs:60-62 | repeated `insert` leaves as keys the old keys plus the inserted keys |
| GraphQL.InsertAllLastWins | src/github/api.rs:60-62 | the last pair inserted for a key decides its value |
| GraphQL.InsertAllKeeps | src/github/api.rs:60-62 | a key no pair mentions keeps its value |
| GraphQL.InsertAllConcat | src/github/api.rs:52-63 | inserting batch after batch is inserting their concatenation |
| GraphQL.InsertAllSnoc | src/github/api.rs:60-62 | inserting one more pair is a map update |
| GraphQL.InsertNodes | src/github/api.rs:60-62 | the insertion loop leaves the map with every non-null node's pair inserted, in order |
| GraphQL.ChunksProperties | src/github/api.rs:53 | `chunks(100)` gives ceil(n/100) chunks, none empty, none longer than 100, whose concatenation is the input |
| GraphQL.LookupStep | src/github/api.rs:53-63 | one round of the batch loop: a failing query ends the lookup with its error; a successful one inserts its nodes and the lookup goes on with the next chunk |
| GraphQL.LookupRequests | src/github/api.rs:53-63 | the k-th request of a lookup is the GraphQL query for the k-th chunk; a successful lookup sends one query per chunk |
| GraphQL.UsernamesBatches | src/github/api.rs:30-65 | a successful `usernames` sends ceil(n/100) queries, the k-th carrying the node ids of the k-th chunk, and the map is every answered node inserted in order |
| GraphQL.LookupSucceeds | src/github/api.rs:53-64 | conversely, with a valid token and every chunk's query answered, the lookup succeeds with one query per chunk and its map is every answer's non-null nodes inserted in order |
| GraphQL.EdgePairs | src/github/api.rs:252-260 | each edge becomes (database id, member with login and role), one for one |
| GraphQL.InsertEdges | src/github/api.rs:252-260 | the insertion loop leaves the map with every edge of the page inserted, in order |
| GraphQL.MembersStep | src/github/api.rs:242-262 | one round of the member loop: a failing query ends the walk with its error; otherwise the page info and map advance (a null node leaves both as they were) and the walk goes on |
| GraphQL.MembersWalkEndpoint | src/github/api.rs:243-249 | every request of the member walk is a POST to the GraphQL endpoint |
| GraphQL.NullNodeNeverFinishes | src/github/api.rs:250 | a null node leaves the page info unchanged, so the same query repeats with the same answer and the loop never ends |
| GraphQL.MembersWalkFirst | src/github/api.rs:242-262 | the first query of a successful walk uses the current cursor, got a page, and the rest of the walk starts from that page's info with its edges inserted |
| GraphQL.MembersWalkChain | src/github/api.rs:242-262 | a successful member walk is a chain of queries and pages |
| GraphQL.MembersChainPages | src/github/api.rs:241-262 | one page per query; the first query has no cursor when the walk starts; each later query uses the previous page's `endCursor` after a page with `hasNextPage`; the last page has none |
| GraphQL.MembersChainMap | src/github/api.rs:238-263 | the memberships are every page's edges inserted in order |
| GraphQL.ChainMembersWalk | src/github/api.rs:240-263 | conversely, with a valid token, a chain of answered pages makes the member walk finish, given enough fuel, with the chain's map and requests |
| Pagination.NextLinkFirst | src/github/api.rs:736-746 | there is a next page iff some `Link` entry has relation `next`, and then it is the first such entry's target |
| Pagination.NextLinkIsFirst | src/github/api.rs:737-745 | the first entry with relation `next` decides the next URL |
| Pagination.PageNext | src/github/api.rs:735-747 | a malformed `Link` header is an error; no header means no next page; a next page comes only from a parsed header |
| Pagination.NextOf | src/github/api.rs:735-747 | the scan loop over the entries computes `Pagination.PageNext` |
| Pagination.Page | src/github/api.rs:729-749 | one round of `rest_paginated` sends exactly one body-less request of the walk's method (or none if the header cannot be built); a `send` error, a malformed `Link` header or a failing step ends it with that error; otherwise its result is the next link paired with the step applied to the reply |
| Pagination.WalkPage | src/github/api.rs:727-751 | a walk that finishes is its first page followed by what remains |
| Pagination.WalkAdvance | src/github/api.rs:727-751 | the same for a walk already under way: the requests so far plus the first page plus the rest are the whole walk |
| Pagination.WalkVerbs | src/github/api.rs:729-732 | every request of a walk uses the walk's method |
| Pagination.WalkFirst | src/github/api.rs:728-749 | the first request of a successful walk goes to the normalised start URL with no body; its reply passed the status check, named the next page, and was folded in; the walk ends iff there is no next page, and otherwise goes on from that URL |
| Pagination.WalkChain | src/github/api.rs:727-751 | a successful walk is a chain of requests and replies from its start URL, with no more requests than the fuel |
| Pagination.ChainPages | src/github/api.rs:727-751 | one reply per request, each got with the walk's method and no error status; each request goes to the `next` link of the reply before it; the last reply names no next page; the result is the fold of the per-page step over the replies |
| Pagination.ChainWalk | src/github/api.rs:727-751 | conversely, with a valid token, a chain of fetched pages from the start URL whose requests use the walk's method, the token and no body makes the walk finish, given enough fuel, with the chain's result and requests |
| Pagination.Collected | src/github/api.rs:363-375 | the items of all pages exist iff every page decodes |
| Pagination.OwnersFold | src/github/api.rs:68-86 | the owners are the old set plus every id on every page, or a decoding error if a page does not decode |
| Pagination.TeamNamesFold | src/github/api.rs:89-101 | the team names are the old set plus every team's name on every page, or a decoding error |
| Pagination.RepoTeamsFold | src/github/api.rs:363-375 | the repository's teams are every page's items appended in order, or a decoding error |
| Pagination.CollaboratorsFold | src/github/api.rs:380-400 | the direct collaborators are every page's items appended in order, or a decoding error |
| Pagination.BranchNamesFold | src/github/api.rs:527-540 | the protected-branch names are the old set plus every branch's name on every page, or a decoding error |
| Wire.RepoPermissionName | src/github/api.rs:816-825 | write access is named `push`, the others by their snake-case names, and reading the name gives the permission back |
| Wire.ParseRepoPermission | src/github/api.rs:816-825 | exactly `push`, `admin`, `maintain` and `triage` are read |
| Wire.ParsedPermissionNamesItself | src/github/api.rs:816-825 | every name read is the name written for what was read |
| Wire.TeamPrivacyName | src/github/api.rs:850-855 | `closed`/`secret`, and reading the name gives the privacy back |
| Wire.ParseTeamPrivacy | src/github/api.rs:850-855 | exactly `closed` and `secret` are read |
| Wire.TeamRoleName | src/github/api.rs:857-862 | a role is written in lower-case letters |
| Wire.TeamRoleDisplay | src/github/api.rs:864-872 | a role is displayed as the name it is written under |
| Wire.ParseTeamRole | src/github/api.rs:857-862 | exactly `MEMBER` and `MAINTAINER` are read |
| Wire.AsciiUpper | src/github/api.rs:858 | screaming-snake case upper-cases each ASCII letter and keeps every other character |
| Wire.TeamRoleWireAsymmetry | src/github/api.rs:857-862 | the upper-cased written name reads back as the role, and the written name itself does not read |
| Wire.PageInfo.Start | src/github/api.rs:784-791 | a traversal starts with no cursor and a page to fetch |
| Wire.ProtectionRequestOf | src/github/api.rs:574-597 | non-strict checks, one per required check and in order; admins enforced; empty dismissal restrictions; the stale-review flag and the approving-review count as given; restrictions with exactly the keys `users` (the allowed users) and `teams` (empty) |
| NodeId.Digit | src/github/api.rs:880 | the decimal digit character for a value below 10 |
| NodeId.Decimal | src/github/api.rs:880 | the numeral of an id is a non-empty string of decimal digits |
| NodeId.DecimalRoundTrip | src/github/api.rs:880 | reading the numeral of n gives n back |
| NodeId.DecimalInjective | src/github/api.rs:880 | distinct ids have distinct numerals |
| NodeId.SextetValue | src/github/api.rs:880 | an alphabet character's 6-bit value maps back to that character |
| NodeId.SextetRoundTrip | src/github/api.rs:880 | every 6-bit value is read back from its character |
| NodeId.Encode | src/github/api.rs:880 | padded base64: four characters per started group of three bytes |
| NodeId.TripleRoundTrip | src/github/api.rs:880 | a full group of three bytes decodes back |
| NodeId.SingleRoundTrip | src/github/api.rs:880 | a last group of one byte decodes back |
| NodeId.PairRoundTrip | src/github/api.rs:880 | a last group of two bytes decodes back |
| NodeId.DecodeGroup | src/github/api.rs:880 | decoding a group followed by more text is that group's bytes followed by the rest's |
| NodeId.ShortRoundTrip | src/github/api.rs:880 | one or two bytes decode back |
| NodeId.DecodeEncode | src/github/api.rs:880 | decoding undoes the base64 encoding for every byte string |
| NodeId.EncodeInjective | src/github/api.rs:880 | distinct byte strings have distinct encodings |
| NodeId.AsciiBytes | src/github/api.rs:880 | an ASCII string's bytes are its character codes |
| NodeId.Tagged | src/github/api.rs:880 | a tag followed by a numeral is ASCII |
| NodeId.TaggedInjective | src/github/api.rs:879-885 | under one tag, distinct ids give distinct bytes |
| NodeId.UserNodeId | src/github/api.rs:879-881 | the user node id decodes to the bytes of `04:User` followed by the id |
| NodeId.TeamNodeId | src/github/api.rs:883-885 | the team node id decodes to the bytes of `04:Team` followed by the id |
| NodeId.UserNodeIdInjective | src/github/api.rs:879-881 | distinct users have distinct node ids |
| NodeId.TeamNodeIdInjective | src/github/api.rs:883-885 | distinct teams have distinct node ids |
| NodeId.UserAndTeamNodeIdsDiffer | src/github/api.rs:879-885 | no user node id is a team node id |
| NodeId.UserExample | src/github/api.rs:879-881 | the node id of user 42 is `MDQ6VXNlcjQy` |
| NodeId.TeamExample | src/github/api.rs:883-885 | the node id of team 7 is `MDQ6VGVhbTc=` |
| NodeId.NodeIdExamples | src/github/api.rs:879-885 | both examples together |
| Client.Mutation | src/github/api.rs:176-184 | in dry-run mode a write sends nothing and succeeds; otherwise it sends what the exchange sends, and it succeeds iff `send` succeeds, with `send`'s error otherwise |
| Client.BodyOf | src/github/api.rs:138-140 | the created record is the decoded body of a successful reply; a transport or status error passes through; an undecodable body is an error |
| Client.ProtectionResult | src/github/api.rs:606-623 | a transport error passes through; a reply is classified by the protection status match |
| Client.ProtectionUpdate | src/github/api.rs:605-626 | in dry-run mode nothing is sent and the result is `true`; otherwise one PUT to `repos/<org>/<repo>/branches/<branch>/protection` with the built body, and its reply classified |
| Client.ExchangeDryRunSafe | src/github/api.rs:656-658 | a request that passed the guard is safe in dry-run mode |
| Client.WalkDryRunSafe | src/github/api.rs:723-752 | a paginated GET read sends only GETs in dry-run mode |
| Client.UsernamesDryRunSafe | src/github/api.rs:30-65 | the username lookup sends only GraphQL queries |
| Client.MembershipsDryRunSafe | src/github/api.rs:186-266 | the membership walk sends only GraphQL queries |
| Client.GitHub.constructor | src/github/api.rs:21-27 | the client holds the token, the dry-run flag and the transport, and has sent nothing |
| Client.GitHub.Dispatch | src/github/api.rs:649-670 | the log grows by the exchange's request and the result is its answer |
| Client.GitHub.Send | src/github/api.rs:672-683 | the log grows by the request of `send`; the result is `Http.Checked`'s |
| Client.GitHub.SendOption | src/github/api.rs:685-696 | the log grows by the request of `send_option`; the result is `Http.Fetch`'s |
| Client.GitHub.SendGraphQL | src/github/api.rs:698-721 | the log grows by the GraphQL request; the result is `GraphQL.Query`'s |
| Client.GitHub.FetchPage | src/github/api.rs:729-748 | one round of the pagination loop: the log grows by the page request; the result is `Pagination.Page`'s |
| Client.GitHub.RestPaginated | src/github/api.rs:723-752 | the loop's log and result are those of the walk the transport determines |
| Client.GitHub.Usernames | src/github/api.rs:30-65 | the batch loop's log and result are those of `GraphQL.Usernames` |
| Client.GitHub.TeamMemberships | src/github/api.rs:186-266 | no request and an empty map for a team without an id; otherwise the member walk |
| Client.GitHub.MembersLoop | src/github/api.rs:241-262 | the page loop's log and result are those of the member walk from the start page info |
| Client.GitHub.OrgOwners | src/github/api.rs:68-86 | a paginated GET of `orgs/<org>/members?role=admin`, collecting owner ids |
| Client.GitHub.OrgTeams | src/github/api.rs:89-101 | a paginated GET of `orgs/<org>/teams`, collecting team names |
| Client.GitHub.Team | src/github/api.rs:104-106 | a fetch of `orgs/<org>/teams/<team>` |
| Client.GitHub.CreateTeam | src/github/api.rs:109-142 | in dry-run mode a team without an id and with the given fields, nothing sent; otherwise a POST to `orgs/<org>/teams` with the name, description and privacy, and the decoded reply |
| Client.GitHub.EditTeam | src/github/api.rs:145-173 | a PATCH of the team with only the given fields, skipped in dry-run mode |
| Client.GitHub.DeleteTeam | src/github/api.rs:176-184 | a DELETE of the team, skipped in dry-run mode |
| Client.GitHub.SetTeamMembership | src/github/api.rs:269-290 | a PUT of the membership with the role, skipped in dry-run mode |
| Client.GitHub.RemoveTeamMembership | src/github/api.rs:293-310 | a DELETE of the membership, skipped in dry-run mode |
| Client.GitHub.Repo | src/github/api.rs:313-315 | a fetch of `repos/<org>/<repo>` |
| Client.GitHub.CreateRepo | src/github/api.rs:318-343 | in dry-run mode a repository with the description and default branch `main`, nothing sent; otherwise a POST to `orgs/<org>/repos` and the decoded reply |
| Client.GitHub.EditRepo | src/github/api.rs:345-360 | a PATCH of the description, skipped in dry-run mode |
| Client.GitHub.RepoTeams | src/github/api.rs:363-375 | a paginated GET of the repository's teams, appended in order |
| Client.GitHub.RepoCollaborators | src/github/api.rs:380-400 | a paginated GET of the direct collaborators, appended in order |
| Client.GitHub.UpdateTeamRepoPermissions | src/github/api.rs:403-424 | a PUT of the team's permission, skipped in dry-run mode |
| Client.GitHub.UpdateUserRepoPermissions | src/github/api.rs:427-447 | a PUT of the collaborator's permission, skipped in dry-run mode |
| Client.GitHub.RemoveTeamFromRepo | src/github/api.rs:450-467 | a DELETE of the team's access, skipped in dry-run mode |
| Client.GitHub.RemoveCollaboratorFromRepo | src/github/api.rs:470-486 | a DELETE of the collaborator, skipped in dry-run mode |
| Client.GitHub.Branch | src/github/api.rs:489-495 | a fetch of the branch, mapped to its head commit's sha |
| Client.GitHub.CreateBranch | src/github/api.rs:498-524 | a POST of `refs/heads/<name>` at the commit, skipped in dry-run mode |
| Client.GitHub.ProtectedBranches | src/github/api.rs:527-540 | a paginated GET of the protected branches, collecting their names |
| Client.GitHub.UpdateBranchProtection | src/github/api.rs:545-627 | the log and result of `Client.ProtectionUpdate` |
| Client.GitHub.DeleteBranchProtection | src/github/api.rs:630-647 | a DELETE of the branch protection, skipped in dry-run mode |

## Left out

- HTTP internals are not modelled: connection handling, the `User-Agent` header, and JSON serialisation and parsing. A decoded body is a `Payload` value. A request body is a `Body` value, not JSON text.
- Parsing the `Link` header text is not modelled. A reply carries the header already parsed, or marked malformed.
- Logging (`debug!`, `trace!`) is not modelled, and neither is the pretty-printed request in `update_branch_protection`.
- The dry-run guard's panic is not modelled as a panic. Every member that builds a request requires `Http.DryRunAllows` instead.
- Client.GitHub.RestPaginated: requires `m == GET || !dryRun` for the whole walk. The source only checks each page URL. Every caller passes GET, so nothing is lost.
- Client.GitHub.RestPaginated: the ghost `fuel` and the requirement that the walk finishes within it leave non-termination unmodelled. This applies to every paginated reader.
- Client.GitHub.TeamMemberships: the same fuel bound applies to the member walk. A null node makes the loop run forever, which is shown by `GraphQL.NullNodeNeverFinishes`.
- The transport is deterministic: the same request always gets the same answer. Time and changes on the platform between two requests are not modelled.
- The query texts are kept with their whitespace collapsed. Only their identity matters here.
- The team node id is computed once, before the loop. The source computes it on every round, and the value is the same.
- `repo_owner` (reading a repository's `owner.login` into `org`) is part of JSON decoding and is not modelled.
- Integer widths are not modelled. Ids are `nat`, not `usize`; the review count is a byte, as in the source.
- The class keeps no invariant over its log. The dry-run guarantee is proved for each operation's specification function (`Client.*DryRunSafe`), and each method's log is that function's.

## Findings

| source | as written | input that shows it | evidently intended | confidence | as-written member | corrected member |
|---|---|---|---|---|---|---|
| src/github/api.rs:690-695 | `send_option` unwraps the error of `error_for_status` for every status other than 200 and 404; a status outside 4xx/5xx has no error, so the unwrap panics | a 204 (or any 1xx, 2xx other than 200, or 3xx) reply to `team`, `repo` or `branch` | any status other than 200 and 404 is reported as an error carrying the status | not executed | Http.FetchPanicsOnNoContent | Http.FetchOutcome |
