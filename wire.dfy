/** The values the client exchanges with the platform: the resource records it
    decodes, the wire names of its enumerations, the GraphQL envelope and
    connection shapes, and the body it builds for a branch-protection update.
    JSON text itself is not modelled: a decoded body is a `Payload`. */
module Wire {
  import opened Results

  type U8 = x: int | 0 <= x < 256

  // ---------------------------------------------------------------------
  // Enumerations and their wire names

  /** A repository permission. The platform still calls write access `push`. */
  datatype RepoPermission = Write | Admin | Maintain | Triage

  /** A team's visibility. */
  datatype TeamPrivacy = Closed | Secret

  /** A member's role in a team. */
  datatype TeamRole = Member | Maintainer

  /** The name under which a permission is written and read. */
  function RepoPermissionName(p: RepoPermission): (s: string)
    ensures ParseRepoPermission(s) == Some(p)
  {
    match p
    case Write => "push"
    case Admin => "admin"
    case Maintain => "maintain"
    case Triage => "triage"
  }

  /** Reads a permission; only the four wire names are accepted. */
  function ParseRepoPermission(s: string): (r: Option<RepoPermission>)
    ensures r.Some? <==> s in {"push", "admin", "maintain", "triage"}
  {
    if s == "push" then Some(Write)
    else if s == "admin" then Some(Admin)
    else if s == "maintain" then Some(Maintain)
    else if s == "triage" then Some(Triage)
    else None
  }

  /** Every name the reader accepts is the name the writer produces for it. */
  lemma ParsedPermissionNamesItself(s: string)
    requires ParseRepoPermission(s).Some?
    ensures RepoPermissionName(ParseRepoPermission(s).value) == s
  {
  }

  /** The wire name of a privacy, the same in both directions. */
  function TeamPrivacyName(p: TeamPrivacy): (s: string)
    ensures ParseTeamPrivacy(s) == Some(p)
  {
    match p
    case Closed => "closed"
    case Secret => "secret"
  }

  function ParseTeamPrivacy(s: string): (r: Option<TeamPrivacy>)
    ensures r.Some? <==> s in {"closed", "secret"}
  {
    if s == "closed" then Some(Closed)
    else if s == "secret" then Some(Secret)
    else None
  }

  /** The name a role is written under (and displayed as): lower case. */
  function TeamRoleName(r: TeamRole): (s: string)
    ensures |s| > 0 && forall i :: 0 <= i < |s| ==> 'a' <= s[i] <= 'z'
  {
    match r
    case Member => "member"
    case Maintainer => "maintainer"
  }

  /** How a role is displayed in messages. */
  function TeamRoleDisplay(r: TeamRole): (s: string)
    ensures s == TeamRoleName(r)
  {
    match r
    case Member => "member"
    case Maintainer => "maintainer"
  }

  /** A role is read from its upper-case name only. */
  function ParseTeamRole(s: string): (r: Option<TeamRole>)
    ensures r.Some? <==> s in {"MEMBER", "MAINTAINER"}
  {
    if s == "MEMBER" then Some(Member)
    else if s == "MAINTAINER" then Some(Maintainer)
    else None
  }

  /** Upper-casing of ASCII letters, the screaming-snake-case of a snake-case name. */
  function AsciiUpper(s: string): (u: string)
    ensures |u| == |s|
    ensures forall i :: 0 <= i < |s| ==> ('a' <= s[i] <= 'z' ==> u[i] as int == s[i] as int - 32)
    ensures forall i :: 0 <= i < |s| ==> (!('a' <= s[i] <= 'z') ==> u[i] == s[i])
  {
    seq(|s|, i requires 0 <= i < |s| => if 'a' <= s[i] <= 'z' then (s[i] as int - 32) as char else s[i])
  }

  /** The reader accepts the upper-cased form of what the writer produces, and
      not the written form itself: the two directions use different names. */
  lemma TeamRoleWireAsymmetry(r: TeamRole)
    ensures ParseTeamRole(AsciiUpper(TeamRoleName(r))) == Some(r)
    ensures ParseTeamRole(TeamRoleName(r)) == None
  {
    var u := AsciiUpper(TeamRoleName(r));
    match r
    case Member =>
      assert u == "MEMBER";
    case Maintainer =>
      assert u == "MAINTAINER";
  }

  // ---------------------------------------------------------------------
  // Resource records

  /** A team. `id` is `None` only for a team "created" in dry-run mode, which
      does not exist on the platform. */
  datatype Team = Team(id: Option<nat>, name: string, description: string, privacy: TeamPrivacy)

  datatype TeamMember = TeamMember(username: string, role: TeamRole)

  datatype Repo = Repo(name: string, org: string, description: Option<string>, defaultBranch: string)

  /** A team's access to a repository. */
  datatype RepoTeam = RepoTeam(name: string, permission: RepoPermission)

  /** A direct collaborator's access to a repository. */
  datatype RepoUser = RepoUser(name: string, permission: RepoPermission)

  datatype Commit = Commit(sha: string)

  datatype Branch = Branch(name: string, commit: Commit)

  /** The desired protection of a branch, as the caller states it. */
  datatype BranchProtection = BranchProtection(
    dismissStaleReviews: bool,
    requiredApprovingReviewCount: U8,
    requiredChecks: seq<string>,
    allowedUsers: seq<string>)

  // ---------------------------------------------------------------------
  // GraphQL shapes

  datatype GraphError = GraphError(message: string)

  /** The GraphQL response envelope; a missing `errors` field reads as empty. */
  datatype GraphResult<T> = GraphResult(data: Option<T>, errors: seq<GraphError>)

  /** The page information of a connection. */
  datatype PageInfo = PageInfo(endCursor: Option<string>, hasNextPage: bool) {

    /** Where a connection traversal starts: no cursor, and a page to fetch. */
    static function Start(): (p: PageInfo)
      ensures p.endCursor.None? && p.hasNextPage
    {
      PageInfo(None, true)
    }
  }

  /** A user node: its numeric database id and its login. */
  datatype UserNode = UserNode(databaseId: nat, login: string)

  /** One edge of a team's member connection. */
  datatype Edge = Edge(role: TeamRole, node: UserNode)

  /** One page of a team's member connection. */
  datatype Members = Members(pageInfo: PageInfo, edges: seq<Edge>)

  // ---------------------------------------------------------------------
  // Decoded response bodies

  /** A response body after JSON decoding, by the shape it decoded into. */
  datatype Payload =
    | TeamJson(team: Team)
    | RepoJson(repo: Repo)
    | BranchJson(branch: Branch)
    | OwnersJson(ownerIds: seq<nat>)
    | TeamsJson(teams: seq<Team>)
    | RepoTeamsJson(repoTeams: seq<RepoTeam>)
    | RepoUsersJson(repoUsers: seq<RepoUser>)
    | BranchesJson(branches: seq<Branch>)
    | NodesJson(nodes: GraphResult<seq<Option<UserNode>>>)
    | TeamNodeJson(teamNode: GraphResult<Option<Members>>)
    | OtherJson

  function AsTeam(p: Payload): Option<Team> { if p.TeamJson? then Some(p.team) else None }
  function AsRepo(p: Payload): Option<Repo> { if p.RepoJson? then Some(p.repo) else None }
  function AsBranch(p: Payload): Option<Branch> { if p.BranchJson? then Some(p.branch) else None }
  function AsNodes(p: Payload): Option<GraphResult<seq<Option<UserNode>>>> {
    if p.NodesJson? then Some(p.nodes) else None
  }
  function AsTeamNode(p: Payload): Option<GraphResult<Option<Members>>> {
    if p.TeamNodeJson? then Some(p.teamNode) else None
  }

  // ---------------------------------------------------------------------
  // The body of a branch-protection update

  datatype Check = Check(context: string)

  datatype StatusChecks = StatusChecks(strict: bool, checks: seq<Check>)

  /** Review requirements. Dismissal restrictions are always sent, and empty. */
  datatype Reviews = Reviews(
    dismissalRestrictions: map<string, seq<string>>,
    dismissStaleReviews: bool,
    requiredApprovingReviewCount: U8)

  datatype ProtectionRequest = ProtectionRequest(
    requiredStatusChecks: StatusChecks,
    enforceAdmins: bool,
    requiredPullRequestReviews: Reviews,
    restrictions: map<string, seq<string>>)

  /** The request body built from a desired protection: non-strict checks, one
      per required check name in order, admins included, no dismissal
      restrictions, and push restricted to exactly the allowed users and no team. */
  function ProtectionRequestOf(bp: BranchProtection): (r: ProtectionRequest)
    ensures !r.requiredStatusChecks.strict && r.enforceAdmins
    ensures |r.requiredStatusChecks.checks| == |bp.requiredChecks|
    ensures forall i :: 0 <= i < |bp.requiredChecks| ==>
              r.requiredStatusChecks.checks[i].context == bp.requiredChecks[i]
    ensures r.requiredPullRequestReviews.dismissalRestrictions == map[]
    ensures r.requiredPullRequestReviews.dismissStaleReviews == bp.dismissStaleReviews
    ensures r.requiredPullRequestReviews.requiredApprovingReviewCount == bp.requiredApprovingReviewCount
    ensures r.restrictions.Keys == {"users", "teams"}
    ensures r.restrictions["users"] == bp.allowedUsers && r.restrictions["teams"] == []
  {
    var checks := seq(|bp.requiredChecks|, i requires 0 <= i < |bp.requiredChecks| => Check(bp.requiredChecks[i]));
    ProtectionRequest(
      StatusChecks(false, checks),
      true,
      Reviews(map[], bp.dismissStaleReviews, bp.requiredApprovingReviewCount),
      map["users" := bp.allowedUsers, "teams" := []])
  }
}
