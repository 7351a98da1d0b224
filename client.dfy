/** The GitHub client: a token, the dry-run switch and a transport, and one
    method per operation on organizations, teams, memberships, repositories,
    permissions and branches. The requests it sends are recorded, in order,
    in a ghost log; in dry-run mode no request that could change anything
    ever reaches that log. */
module Client {
  import opened Results
  import opened Wire
  import opened Http
  import opened NodeId
  import opened GraphQL
  import opened Pagination

  // ---------------------------------------------------------------------
  // Paths below the API origin

  function TeamsPath(org: string): string { "orgs/" + org + "/teams" }
  function TeamPath(org: string, team: string): string { TeamsPath(org) + "/" + team }
  function MembershipPath(org: string, team: string, user: string): string {
    TeamPath(org, team) + "/memberships/" + user
  }
  function OwnersPath(org: string): string { "orgs/" + org + "/members?role=admin" }
  function ReposPath(org: string): string { "orgs/" + org + "/repos" }
  function RepoPath(org: string, repo: string): string { "repos/" + org + "/" + repo }
  function TeamRepoPath(org: string, team: string, repo: string): string {
    TeamPath(org, team) + "/repos/" + org + "/" + repo
  }
  function CollaboratorPath(org: string, repo: string, user: string): string {
    RepoPath(org, repo) + "/collaborators/" + user
  }
  function BranchPath(repo: Repo, branch: string): string {
    RepoPath(repo.org, repo.name) + "/branches/" + branch
  }
  function ProtectionPath(repo: Repo, branch: string): string { BranchPath(repo, branch) + "/protection" }

  // ---------------------------------------------------------------------
  // What the operations come to

  /** A change that dry-run mode skips: nothing is sent and it succeeds;
      otherwise the request goes out and only its status matters. */
  function Mutation(cfg: Config, t: Transport, m: Method, url: string, body: Body): (r: Run<()>)
    ensures cfg.dryRun ==> r == Run(Ok(()), [])
    ensures !cfg.dryRun ==> r.sent == Exchange(cfg, t, m, url, body).sent
    ensures !cfg.dryRun ==> (r.result.Ok? <==> Checked(cfg, t, m, url, body).result.Ok?)
    ensures !cfg.dryRun && r.result.Err? ==> r.result.error == Checked(cfg, t, m, url, body).result.error
  {
    if cfg.dryRun then Run(Ok(()), [])
    else
      var c := Checked(cfg, t, m, url, body);
      Run(if c.result.Ok? then Ok(()) else Err(c.result.error), c.sent)
  }

  /** A status-checked reply decoded into the expected shape. */
  function BodyOf<T>(c: Result<Reply>, decode: Payload -> Option<T>): (r: Result<T>)
    ensures r.Ok? <==> c.Ok? && decode(c.value.body).Some?
    ensures r.Ok? ==> Some(r.value) == decode(c.value.body)
    ensures c.Err? ==> r == Err(c.error)
  {
    match c
    case Err(e) => Err(e)
    case Ok(reply) => Decoded(decode(reply.body))
  }

  /** `update_branch_protection` once the request is built: the status match
      on the reply, or the transport's error. */
  function ProtectionResult(c: Result<Reply>): (r: Result<bool>)
    ensures c.Err? ==> r == Err(c.error)
    ensures c.Ok? ==> r == ProtectionOutcome(c.value)
  {
    match c
    case Err(e) => Err(e)
    case Ok(reply) => ProtectionOutcome(reply)
  }

  /** In dry-run mode a protection update sends nothing and reports success;
      otherwise one PUT with the built body is sent. */
  function ProtectionUpdate(cfg: Config, t: Transport, repo: Repo, branch: string, bp: BranchProtection): (r: Run<bool>)
    ensures cfg.dryRun ==> r == Run(Ok(true), [])
    ensures !cfg.dryRun ==> r.sent == Exchange(cfg, t, PUT, ProtectionPath(repo, branch), ProtectionBody(ProtectionRequestOf(bp))).sent
    ensures !cfg.dryRun ==>
              r.result == ProtectionResult(Exchange(cfg, t, PUT, ProtectionPath(repo, branch), ProtectionBody(ProtectionRequestOf(bp))).result)
  {
    if cfg.dryRun then Run(Ok(true), [])
    else
      var c := Exchange(cfg, t, PUT, ProtectionPath(repo, branch), ProtectionBody(ProtectionRequestOf(bp)));
      Run(ProtectionResult(c.result), c.sent)
  }

  // ---------------------------------------------------------------------
  // The dry-run guarantee

  /** In dry-run mode, every request sent may go out in dry-run mode. */
  predicate DryRunSafe(cfg: Config, sent: seq<Request>) {
    cfg.dryRun ==> forall i :: 0 <= i < |sent| ==> SafeInDryRun(sent[i].verb, sent[i].url)
  }

  /** A single request that passed the guard of `req`. */
  lemma ExchangeDryRunSafe(cfg: Config, t: Transport, m: Method, url: string, body: Body)
    requires DryRunAllows(cfg, m, url)
    ensures DryRunSafe(cfg, Exchange(cfg, t, m, url, body).sent)
  {
  }

  /** A paginated read in dry-run mode only sends GETs. */
  lemma WalkDryRunSafe<A>(cfg: Config, t: Transport, m: Method, url: string, acc: A,
                          step: (A, Reply) -> Result<A>, fuel: nat)
    requires m == GET || !cfg.dryRun
    requires Walk(cfg, t, m, url, acc, step, fuel).Some?
    ensures DryRunSafe(cfg, Walk(cfg, t, m, url, acc, step, fuel).value.sent)
  {
    WalkVerbs(cfg, t, m, url, acc, step, fuel);
  }

  /** The username lookup only sends GraphQL queries. */
  lemma UsernamesDryRunSafe(cfg: Config, t: Transport, ids: seq<nat>)
    ensures DryRunSafe(cfg, GraphQL.Usernames(cfg, t, ids).sent)
  {
    var _ := LookupRequests(cfg, t, Chunks(ids, ChunkSize), map[]);
    GraphQLEndpoint(cfg);
  }

  /** The membership walk only sends GraphQL queries. */
  lemma MembershipsDryRunSafe(cfg: Config, t: Transport, team: Team, fuel: nat)
    requires Memberships(cfg, t, team, fuel).Some?
    ensures DryRunSafe(cfg, Memberships(cfg, t, team, fuel).value.sent)
  {
    if team.id.Some? {
      MembersWalkEndpoint(cfg, t, TeamNodeId(team.id.value), PageInfo.Start(), map[], fuel);
    }
    GraphQLEndpoint(cfg);
  }

  /** Appending the requests of one step and then of the rest. */
  lemma AfterAfter<T>(a: seq<Request>, b: seq<Request>, r: Run<T>)
    ensures After(a, After(b, r)) == After(a + b, r)
  {
    assert a + (b + r.sent) == (a + b) + r.sent;
  }

  // ---------------------------------------------------------------------
  // The client

  class GitHub {
    const config: Config
    const transport: Transport

    /** Every request handed to the transport, in order. */
    ghost var log: seq<Request>

    constructor(token: string, dryRun: bool, transport: Transport)
      ensures config == Config(token, dryRun) && this.transport == transport
      ensures log == []
    {
      config := Config(token, dryRun);
      this.transport := transport;
      log := [];
    }

    /** `req(...)?.send()`: build the request and hand it to the transport. */
    method Dispatch(m: Method, url: string, body: Body) returns (r: Result<Reply>)
      requires DryRunAllows(config, m, url)
      modifies this
      ensures log == old(log) + Exchange(config, transport, m, url, body).sent
      ensures r == Exchange(config, transport, m, url, body).result
    {
      var rq :- Req(config, m, url, body);
      log := log + [rq];
      r := transport(rq);
    }

    /** `send`: dispatch and reject error statuses. */
    method Send(m: Method, url: string, body: Body) returns (r: Result<Reply>)
      requires DryRunAllows(config, m, url)
      modifies this
      ensures log == old(log) + Checked(config, transport, m, url, body).sent
      ensures r == Checked(config, transport, m, url, body).result
    {
      var reply :- Dispatch(m, url, body);
      r := ErrorForStatus(reply);
    }

    /** `send_option`: 200 is the decoded value, 404 is absence, anything
      else is an error. */
    method SendOption<T>(m: Method, url: string, decode: Payload -> Option<T>) returns (r: Result<Option<T>>)
      requires DryRunAllows(config, m, url)
      modifies this
      ensures log == old(log) + Fetch(config, transport, m, url, decode).sent
      ensures r == Fetch(config, transport, m, url, decode).result
    {
      var reply :- Dispatch(m, url, NoBody);
      r := FetchOutcome(reply, decode);
    }

    /** `graphql`: one query, its envelope unwrapped. */
    method SendGraphQL<R>(query: string, vars: Variables, decode: Payload -> Option<GraphResult<R>>) returns (r: Result<R>)
      modifies this
      ensures log == old(log) + Query(config, transport, query, vars, decode).sent
      ensures r == Query(config, transport, query, vars, decode).result
    {
      GraphQLEndpoint(config);
      var reply :- Send(POST, GraphQLPath, GraphQLBody(query, vars));
      var env :- Decoded(decode(reply.body));
      r := Unwrap(env);
    }

    /** One round of `rest_paginated`: fetch the page, find its `next` link,
      fold the page into the accumulator. */
    method FetchPage<A>(m: Method, url: string, acc: A, step: (A, Reply) -> Result<A>)
      returns (r: Result<(Option<string>, A)>)
      requires m == GET || !config.dryRun
      modifies this
      ensures log == old(log) + Page(config, transport, m, url, acc, step).sent
      ensures r == Page(config, transport, m, url, acc, step).result
    {
      var reply :- Send(m, url, NoBody);
      var next :- NextOf(reply.link);
      var acc' :- step(acc, reply);
      r := Ok((next, acc'));
    }

    /** `rest_paginated`: fetch page after page, following the first `next`
      link of each, and fold every page into the accumulator in order. The
      walk is assumed to end within `fuel` pages. */
    method RestPaginated<A>(m: Method, url: string, init: A, step: (A, Reply) -> Result<A>, ghost fuel: nat)
      returns (r: Result<A>)
      requires m == GET || !config.dryRun
      requires Walk(config, transport, m, url, init, step, fuel).Some?
      modifies this
      ensures log == old(log) + Walk(config, transport, m, url, init, step, fuel).value.sent
      ensures r == Walk(config, transport, m, url, init, step, fuel).value.result
    {
      ghost var whole := Walk(config, transport, m, url, init, step, fuel).value;
      ghost var done: seq<Request> := [];
      ghost var f := fuel;
      var next: Option<string> := Some(url);
      var acc := init;
      while next.Some?
        invariant log == old(log) + done
        invariant Remaining(config, transport, m, next, acc, step, f).Some?
        invariant whole == After(done, Remaining(config, transport, m, next, acc, step, f).value)
        decreases f
      {
        WalkAdvance(config, transport, m, next.value, acc, step, f, done, whole);
        ghost var p := Page(config, transport, m, next.value, acc, step);
        AppendAssoc(old(log), done, p.sent);
        var page :- FetchPage(m, next.value, acc, step);
        done := done + p.sent;
        next, acc := page.0, page.1;
        assert p.result == Ok((next, acc));
        f := f - 1;
      }
      r := Ok(acc);
    }

    /** `usernames`: the logins of the given user ids, asked for in batches
      of a hundred node ids; null nodes are skipped. */
    method Usernames(ids: seq<nat>) returns (r: Result<map<nat, string>>)
      modifies this
      ensures log == old(log) + GraphQL.Usernames(config, transport, ids).sent
      ensures r == GraphQL.Usernames(config, transport, ids).result
    {
      var chunks := Chunks(ids, ChunkSize);
      ghost var done: seq<Request> := [];
      var result: map<nat, string> := map[];
      var k := 0;
      while k < |chunks|
        invariant 0 <= k <= |chunks|
        invariant log == old(log) + done
        invariant GraphQL.Usernames(config, transport, ids) == After(done, Lookup(config, transport, chunks[k..], result))
      {
        LookupStep(config, transport, chunks, k, result);
        ghost var q := Query(config, transport, UsernamesQuery, NodeIds(UserNodeIds(chunks[k])), AsNodes);
        ghost var before := done;
        AppendAssoc(old(log), before, q.sent);
        if q.result.Ok? {
          AfterAfter(before, q.sent, Lookup(config, transport, chunks[k + 1..], InsertAll(result, NodePairs(q.result.value))));
        }
        var nodes :- SendGraphQL(UsernamesQuery, NodeIds(UserNodeIds(chunks[k])), AsNodes);
        done := done + q.sent;
        result := InsertNodes(result, nodes);
        k := k + 1;
      }
      r := Ok(result);
    }

    /** `team_memberships`: the members of a team and their roles; a team
      without an id has none. The walk is assumed to end within `fuel`
      queries. */
    method TeamMemberships(team: Team, ghost fuel: nat) returns (r: Result<map<nat, TeamMember>>)
      requires Memberships(config, transport, team, fuel).Some?
      modifies this
      ensures log == old(log) + Memberships(config, transport, team, fuel).value.sent
      ensures r == Memberships(config, transport, team, fuel).value.result
    {
      if team.id.Some? {
        r := MembersLoop(TeamNodeId(team.id.value), fuel);
      } else {
        r := Ok(map[]);
      }
    }

    /** The loop of `team_memberships`: page by page along the member
      connection of the team with node id `node`, inserting every edge. */
    method MembersLoop(node: string, ghost fuel: nat) returns (r: Result<map<nat, TeamMember>>)
      requires MembersWalk(config, transport, node, PageInfo.Start(), map[], fuel).Some?
      modifies this
      ensures log == old(log) + MembersWalk(config, transport, node, PageInfo.Start(), map[], fuel).value.sent
      ensures r == MembersWalk(config, transport, node, PageInfo.Start(), map[], fuel).value.result
    {
      ghost var whole := MembersWalk(config, transport, node, PageInfo.Start(), map[], fuel).value;
      ghost var done: seq<Request> := [];
      ghost var f := fuel;
      var memberships: map<nat, TeamMember> := map[];
      var pageInfo := PageInfo.Start();
      while pageInfo.hasNextPage
        invariant log == old(log) + done
        invariant MembersWalk(config, transport, node, pageInfo, memberships, f).Some?
        invariant whole == After(done, MembersWalk(config, transport, node, pageInfo, memberships, f).value)
        decreases f
      {
        MembersStep(config, transport, node, pageInfo, memberships, f);
        ghost var q := Query(config, transport, MembersQuery, TeamCursor(node, pageInfo.endCursor), AsTeamNode);
        ghost var before := done;
        AppendAssoc(old(log), before, q.sent);
        ghost var next := if q.result.Ok? then Advance(pageInfo, memberships, q.result.value) else (pageInfo, memberships);
        if q.result.Ok? {
          AfterAfter(before, q.sent, MembersWalk(config, transport, node, next.0, next.1, f - 1).value);
        }
        var res :- SendGraphQL(MembersQuery, TeamCursor(node, pageInfo.endCursor), AsTeamNode);
        if res.Some? {
          pageInfo := res.value.pageInfo;
          memberships := InsertEdges(memberships, res.value.edges);
        }
        done := done + q.sent;
        f := f - 1;
      }
      r := Ok(memberships);
    }

    // -------------------------------------------------------------------
    // Organizations and teams

    /** `org_owners`: the ids of the organization's admins. */
    method OrgOwners(org: string, ghost fuel: nat) returns (r: Result<set<nat>>)
      requires Walk(config, transport, GET, OwnersPath(org), {}, OwnersStep, fuel).Some?
      modifies this
      ensures var w := Walk(config, transport, GET, OwnersPath(org), {}, OwnersStep, fuel).value;
        r == w.result && log == old(log) + w.sent
    {
      r := RestPaginated(GET, OwnersPath(org), {}, OwnersStep, fuel);
    }

    /** `org_teams`: the names of the organization's teams. */
    method OrgTeams(org: string, ghost fuel: nat) returns (r: Result<set<string>>)
      requires Walk(config, transport, GET, TeamsPath(org), {}, TeamNamesStep, fuel).Some?
      modifies this
      ensures var w := Walk(config, transport, GET, TeamsPath(org), {}, TeamNamesStep, fuel).value;
        r == w.result && log == old(log) + w.sent
    {
      r := RestPaginated(GET, TeamsPath(org), {}, TeamNamesStep, fuel);
    }

    /** `team`: a team by name, or nothing if there is none. */
    method Team(org: string, team: string) returns (r: Result<Option<Wire.Team>>)
      modifies this
      ensures log == old(log) + Fetch(config, transport, GET, TeamPath(org, team), AsTeam).sent
      ensures r == Fetch(config, transport, GET, TeamPath(org, team), AsTeam).result
    {
      r := SendOption(GET, TeamPath(org, team), AsTeam);
    }

    /** `create_team`: in dry-run mode a team without an id is made up and
      nothing is sent. */
    method CreateTeam(org: string, name: string, description: string, privacy: TeamPrivacy)
      returns (r: Result<Wire.Team>)
      modifies this
      ensures config.dryRun ==> r == Ok(Wire.Team(None, name, description, privacy)) && log == old(log)
      ensures !config.dryRun ==>
        var c := Checked(config, transport, POST, TeamsPath(org), CreateTeamBody(name, description, privacy));
        r == BodyOf(c.result, AsTeam) && log == old(log) + c.sent
    {
      if config.dryRun {
        r := Ok(Wire.Team(None, name, description, privacy));
      } else {
        var reply :- Send(POST, TeamsPath(org), CreateTeamBody(name, description, privacy));
        r := Decoded(AsTeam(reply.body));
      }
    }

    /** `edit_team`: only the given fields are sent; skipped in dry-run mode. */
    method EditTeam(org: string, name: string, newName: Option<string>, newDescription: Option<string>,
                    newPrivacy: Option<TeamPrivacy>) returns (r: Result<()>)
      modifies this
      ensures var w := Mutation(config, transport, PATCH, TeamPath(org, name), EditTeamBody(newName, newDescription, newPrivacy));
        r == w.result && log == old(log) + w.sent
    {
      r := Ok(());
      if !config.dryRun {
        var _ :- Send(PATCH, TeamPath(org, name), EditTeamBody(newName, newDescription, newPrivacy));
      }
    }

    /** `delete_team`; skipped in dry-run mode. */
    method DeleteTeam(org: string, team: string) returns (r: Result<()>)
      modifies this
      ensures var w := Mutation(config, transport, DELETE, TeamPath(org, team), NoBody);
        r == w.result && log == old(log) + w.sent
    {
      r := Ok(());
      if !config.dryRun {
        var _ :- Send(DELETE, TeamPath(org, team), NoBody);
      }
    }

    /** `set_team_membership`; skipped in dry-run mode. */
    method SetTeamMembership(org: string, team: string, user: string, role: TeamRole) returns (r: Result<()>)
      modifies this
      ensures var w := Mutation(config, transport, PUT, MembershipPath(org, team, user), MembershipBody(role));
        r == w.result && log == old(log) + w.sent
    {
      r := Ok(());
      if !config.dryRun {
        var _ :- Send(PUT, MembershipPath(org, team, user), MembershipBody(role));
      }
    }

    /** `remove_team_membership`; skipped in dry-run mode. */
    method RemoveTeamMembership(org: string, team: string, user: string) returns (r: Result<()>)
      modifies this
      ensures var w := Mutation(config, transport, DELETE, MembershipPath(org, team, user), NoBody);
        r == w.result && log == old(log) + w.sent
    {
      r := Ok(());
      if !config.dryRun {
        var _ :- Send(DELETE, MembershipPath(org, team, user), NoBody);
      }
    }

    // -------------------------------------------------------------------
    // Repositories and permissions

    /** `repo`: a repository by name, or nothing if there is none. */
    method Repo(org: string, repo: string) returns (r: Result<Option<Wire.Repo>>)
      modifies this
      ensures log == old(log) + Fetch(config, transport, GET, RepoPath(org, repo), AsRepo).sent
      ensures r == Fetch(config, transport, GET, RepoPath(org, repo), AsRepo).result
    {
      r := SendOption(GET, RepoPath(org, repo), AsRepo);
    }

    /** `create_repo`: in dry-run mode a repository on `main` is made up and
      nothing is sent. */
    method CreateRepo(org: string, name: string, description: string) returns (r: Result<Wire.Repo>)
      modifies this
      ensures config.dryRun ==> r == Ok(Wire.Repo(name, org, Some(description), "main")) && log == old(log)
      ensures !config.dryRun ==>
        var c := Checked(config, transport, POST, ReposPath(org), CreateRepoBody(name, description));
        r == BodyOf(c.result, AsRepo) && log == old(log) + c.sent
    {
      if config.dryRun {
        r := Ok(Wire.Repo(name, org, Some(description), "main"));
      } else {
        var reply :- Send(POST, ReposPath(org), CreateRepoBody(name, description));
        r := Decoded(AsRepo(reply.body));
      }
    }

    /** `edit_repo`: a new description; skipped in dry-run mode. */
    method EditRepo(repo: Wire.Repo, description: string) returns (r: Result<()>)
      modifies this
      ensures var w := Mutation(config, transport, PATCH, RepoPath(repo.org, repo.name), EditRepoBody(description));
        r == w.result && log == old(log) + w.sent
    {
      r := Ok(());
      if !config.dryRun {
        var _ :- Send(PATCH, RepoPath(repo.org, repo.name), EditRepoBody(description));
      }
    }

    /** `repo_teams`: the teams with access to a repository, in the order
      the pages list them. */
    method RepoTeams(org: string, repo: string, ghost fuel: nat) returns (r: Result<seq<RepoTeam>>)
      requires Walk(config, transport, GET, RepoPath(org, repo) + "/teams", [], RepoTeamsStep, fuel).Some?
      modifies this
      ensures var w := Walk(config, transport, GET, RepoPath(org, repo) + "/teams", [], RepoTeamsStep, fuel).value;
        r == w.result && log == old(log) + w.sent
    {
      r := RestPaginated(GET, RepoPath(org, repo) + "/teams", [], RepoTeamsStep, fuel);
    }

    /** `repo_collaborators`: the direct collaborators of a repository, in
      the order the pages list them. */
    method RepoCollaborators(org: string, repo: string, ghost fuel: nat) returns (r: Result<seq<RepoUser>>)
      requires Walk(config, transport, GET, RepoPath(org, repo) + "/collaborators?affiliation=direct", [],
                    CollaboratorsStep, fuel).Some?
      modifies this
      ensures var w := Walk(config, transport, GET, RepoPath(org, repo) + "/collaborators?affiliation=direct", [],
                            CollaboratorsStep, fuel).value;
        r == w.result && log == old(log) + w.sent
    {
      r := RestPaginated(GET, RepoPath(org, repo) + "/collaborators?affiliation=direct", [], CollaboratorsStep, fuel);
    }

    /** `update_team_repo_permissions`; skipped in dry-run mode. */
    method UpdateTeamRepoPermissions(org: string, repo: string, team: string, permission: RepoPermission)
      returns (r: Result<()>)
      modifies this
      ensures var w := Mutation(config, transport, PUT, TeamRepoPath(org, team, repo), PermissionBody(permission));
        r == w.result && log == old(log) + w.sent
    {
      r := Ok(());
      if !config.dryRun {
        var _ :- Send(PUT, TeamRepoPath(org, team, repo), PermissionBody(permission));
      }
    }

    /** `update_user_repo_permissions`; skipped in dry-run mode. */
    method UpdateUserRepoPermissions(org: string, repo: string, user: string, permission: RepoPermission)
      returns (r: Result<()>)
      modifies this
      ensures var w := Mutation(config, transport, PUT, CollaboratorPath(org, repo, user), PermissionBody(permission));
        r == w.result && log == old(log) + w.sent
    {
      r := Ok(());
      if !config.dryRun {
        var _ :- Send(PUT, CollaboratorPath(org, repo, user), PermissionBody(permission));
      }
    }

    /** `remove_team_from_repo`; skipped in dry-run mode. */
    method RemoveTeamFromRepo(org: string, repo: string, team: string) returns (r: Result<()>)
      modifies this
      ensures var w := Mutation(config, transport, DELETE, TeamRepoPath(org, team, repo), NoBody);
        r == w.result && log == old(log) + w.sent
    {
      r := Ok(());
      if !config.dryRun {
        var _ :- Send(DELETE, TeamRepoPath(org, team, repo), NoBody);
      }
    }

    /** `remove_collaborator_from_repo`; skipped in dry-run mode. */
    method RemoveCollaboratorFromRepo(org: string, repo: string, collaborator: string) returns (r: Result<()>)
      modifies this
      ensures var w := Mutation(config, transport, DELETE, CollaboratorPath(org, repo, collaborator), NoBody);
        r == w.result && log == old(log) + w.sent
    {
      r := Ok(());
      if !config.dryRun {
        var _ :- Send(DELETE, CollaboratorPath(org, repo, collaborator), NoBody);
      }
    }

    // -------------------------------------------------------------------
    // Branches

    /** `branch`: the head commit of a branch, or nothing if there is none. */
    method Branch(repo: Wire.Repo, name: string) returns (r: Result<Option<string>>)
      modifies this
      ensures var f := Fetch(config, transport, GET, BranchPath(repo, name), AsBranch);
        log == old(log) + f.sent &&
        r == match f.result
             case Err(e) => Err(e)
             case Ok(b) => Ok(if b.Some? then Some(b.value.commit.sha) else None)
    {
      var branch :- SendOption(GET, BranchPath(repo, name), AsBranch);
      r := Ok(if branch.Some? then Some(branch.value.commit.sha) else None);
    }

    /** `create_branch`: a `refs/heads/` reference at the commit; skipped in
      dry-run mode. */
    method CreateBranch(repo: Wire.Repo, name: string, commit: string) returns (r: Result<()>)
      modifies this
      ensures var w := Mutation(config, transport, POST, RepoPath(repo.org, repo.name) + "/git/refs",
                             CreateRefBody("refs/heads/" + name, commit));
        r == w.result && log == old(log) + w.sent
    {
      r := Ok(());
      if !config.dryRun {
        var _ :- Send(POST, RepoPath(repo.org, repo.name) + "/git/refs", CreateRefBody("refs/heads/" + name, commit));
      }
    }

    /** `protected_branches`: the names of the protected branches. */
    method ProtectedBranches(repo: Wire.Repo, ghost fuel: nat) returns (r: Result<set<string>>)
      requires Walk(config, transport, GET, RepoPath(repo.org, repo.name) + "/branches?protected=true", {},
                    BranchNamesStep, fuel).Some?
      modifies this
      ensures var w := Walk(config, transport, GET, RepoPath(repo.org, repo.name) + "/branches?protected=true", {},
                            BranchNamesStep, fuel).value;
        r == w.result && log == old(log) + w.sent
    {
      r := RestPaginated(GET, RepoPath(repo.org, repo.name) + "/branches?protected=true", {}, BranchNamesStep, fuel);
    }

    /** `update_branch_protection`: true when applied, false when the branch
      does not exist (or the status is neither success nor error); in
      dry-run mode nothing is sent and the answer is true. */
    method UpdateBranchProtection(repo: Wire.Repo, branch: string, protection: BranchProtection) returns (r: Result<bool>)
      modifies this
      ensures var u := ProtectionUpdate(config, transport, repo, branch, protection);
        r == u.result && log == old(log) + u.sent
    {
      var request := ProtectionRequestOf(protection);
      if !config.dryRun {
        var reply :- Dispatch(PUT, ProtectionPath(repo, branch), ProtectionBody(request));
        r := ProtectionOutcome(reply);
      } else {
        r := Ok(true);
      }
    }

    /** `delete_branch_protection`; skipped in dry-run mode. */
    method DeleteBranchProtection(repo: Wire.Repo, branch: string) returns (r: Result<()>)
      modifies this
      ensures var w := Mutation(config, transport, DELETE, ProtectionPath(repo, branch), NoBody);
        r == w.result && log == old(log) + w.sent
    {
      r := Ok(());
      if !config.dryRun {
        var _ :- Send(DELETE, ProtectionPath(repo, branch), NoBody);
      }
    }
  }
}
