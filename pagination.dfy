/** Paginated REST reads: the `next` entry of a reply's `Link` header names
    the following page (section 3 of RFC 8288); every page is handed, in
    order, to a step that folds it into an accumulator, and the first error
    of any kind ends the walk. */
module Pagination {
  import opened Results
  import opened Wire
  import opened Http

  /** A link entry whose relation types include `next`. */
  predicate HasNext(l: Link) {
    l.rels.Some? && Next in l.rels.value
  }

  /** The target of the first `next` entry, if any entry is one. */
  function NextLink(links: seq<Link>): Option<string>
    decreases |links|
  {
    if |links| == 0 then None
    else if HasNext(links[0]) then Some(links[0].url)
    else NextLink(links[1..])
  }

  /** There is a next page exactly when some entry is a `next` entry, and then
      it is the target of the first such entry. */
  lemma {:induction false} NextLinkFirst(links: seq<Link>)
    ensures NextLink(links).None? <==> forall i :: 0 <= i < |links| ==> !HasNext(links[i])
    ensures NextLink(links).Some? ==>
              exists i :: 0 <= i < |links| && HasNext(links[i]) && NextLink(links).value == links[i].url &&
                          forall j :: 0 <= j < i ==> !HasNext(links[j])
    decreases |links|
  {
    if |links| > 0 && !HasNext(links[0]) {
      NextLinkFirst(links[1..]);
      assert forall i :: 1 <= i < |links| ==> links[1..][i - 1] == links[i];
      if NextLink(links).Some? {
        var i :| 0 <= i < |links[1..]| && HasNext(links[1..][i]) && NextLink(links).value == links[1..][i].url &&
                 forall j :: 0 <= j < i ==> !HasNext(links[1..][j]);
        assert HasNext(links[i + 1]) && NextLink(links).value == links[i + 1].url;
      }
    }
  }

  /** Whichever entry is the first `next` entry decides the next page. */
  lemma {:induction false} NextLinkIsFirst(links: seq<Link>, i: nat)
    requires i < |links| && HasNext(links[i])
    requires forall j :: 0 <= j < i ==> !HasNext(links[j])
    ensures NextLink(links) == Some(links[i].url)
    decreases i
  {
    if i > 0 {
      assert links[1..][i - 1] == links[i];
      NextLinkIsFirst(links[1..], i - 1);
    }
  }

  /** The next page named by a reply's `Link` header: none without a header,
      an error when the header does not parse. */
  function PageNext(h: LinkHeader): (r: Result<Option<string>>)
    ensures r.Err? <==> h.MalformedLinkHeader?
    ensures r.Err? ==> r.error == MalformedLink
    ensures r.Ok? && r.value.Some? ==> h.Links?
  {
    match h
    case NoLinkHeader => Ok(None)
    case Links(links) => Ok(NextLink(links))
    case MalformedLinkHeader => Err(MalformedLink)
  }

  /** The header handling of `rest_paginated`: scan the entries and stop at
      the first `next` entry. */
  method NextOf(h: LinkHeader) returns (r: Result<Option<string>>)
    ensures r == PageNext(h)
  {
    match h {
      case NoLinkHeader =>
        r := Ok(None);
      case MalformedLinkHeader =>
        r := Err(MalformedLink);
      case Links(links) =>
        var next: Option<string> := None;
        var i := 0;
        while i < |links|
          invariant 0 <= i <= |links|
          invariant NextLink(links) == NextLink(links[i..])
        {
          if links[i].rels.Some? && Next in links[i].rels.value {
            next := Some(links[i].url);
            break;
          }
          assert links[i..][1..] == links[i + 1..];
          i := i + 1;
        }
        r := Ok(next);
    }
  }

  /** One page of `rest_paginated`: fetch it with the status checked, read
      its `Link` header, then fold it in. The result is the next page, if
      any, and the new accumulator. */
  function Page<A>(cfg: Config, t: Transport, m: Method, url: string, acc: A,
                   step: (A, Reply) -> Result<A>): (r: Run<(Option<string>, A)>)
    requires m == GET || !cfg.dryRun
    ensures r.sent == Exchange(cfg, t, m, url, NoBody).sent
    ensures var c := Checked(cfg, t, m, url, NoBody).result;
      && (c.Err? ==> r.result == Err(c.error))
      && (c.Ok? && PageNext(c.value.link).Err? ==> r.result == Err(PageNext(c.value.link).error))
      && (c.Ok? && PageNext(c.value.link).Ok? && step(acc, c.value).Err? ==> r.result == Err(step(acc, c.value).error))
      && (c.Ok? && PageNext(c.value.link).Ok? && step(acc, c.value).Ok? ==>
            r.result == Ok((PageNext(c.value.link).value, step(acc, c.value).value)))
  {
    var c := Checked(cfg, t, m, url, NoBody);
    match c.result
    case Err(e) => Run(Err(e), c.sent)
    case Ok(reply) =>
      match PageNext(reply.link)
      case Err(e) => Run(Err(e), c.sent)
      case Ok(next) =>
        match step(acc, reply)
        case Err(e) => Run(Err(e), c.sent)
        case Ok(acc') => Run(Ok((next, acc')), c.sent)
  }

  /** The walk from `url`, given at most `fuel` more pages; `None` when it
      needs more. The walk goes on only if the page names a next page. */
  function Walk<A>(cfg: Config, t: Transport, m: Method, url: string, acc: A,
                   step: (A, Reply) -> Result<A>, fuel: nat): Option<Run<A>>
    requires m == GET || !cfg.dryRun
    decreases fuel
  {
    if fuel == 0 then None
    else
      var p := Page(cfg, t, m, url, acc, step);
      match p.result
      case Err(e) => Some(Run(Err(e), p.sent))
      case Ok((next, acc')) =>
        if next.None? then Some(Run(Ok(acc'), p.sent))
        else
          match Walk(cfg, t, m, next.value, acc', step, fuel - 1)
          case None => None
          case Some(rest) => Some(After(p.sent, rest))
  }

  /** What is left of a walk once `next` is known: nothing more when there
      is no next page, the walk from it otherwise. */
  function Remaining<A>(cfg: Config, t: Transport, m: Method, next: Option<string>, acc: A,
                        step: (A, Reply) -> Result<A>, fuel: nat): Option<Run<A>>
    requires m == GET || !cfg.dryRun
  {
    if next.None? then Some(Run(Ok(acc), [])) else Walk(cfg, t, m, next.value, acc, step, fuel)
  }

  /** A walk that finishes is its first page followed by what is left. */
  lemma WalkPage<A>(cfg: Config, t: Transport, m: Method, url: string, acc: A,
                    step: (A, Reply) -> Result<A>, fuel: nat)
    requires m == GET || !cfg.dryRun
    requires Walk(cfg, t, m, url, acc, step, fuel).Some?
    ensures fuel > 0
    ensures var p := Page(cfg, t, m, url, acc, step);
      && (p.result.Err? ==> Walk(cfg, t, m, url, acc, step, fuel).value == Run(Err(p.result.error), p.sent))
      && (p.result.Ok? ==>
            && Remaining(cfg, t, m, p.result.value.0, p.result.value.1, step, fuel - 1).Some?
            && Walk(cfg, t, m, url, acc, step, fuel).value ==
                 After(p.sent, Remaining(cfg, t, m, p.result.value.0, p.result.value.1, step, fuel - 1).value))
  {
    var p := Page(cfg, t, m, url, acc, step);
    if p.result.Ok? && p.result.value.0.None? {
      assert p.sent + [] == p.sent;
    }
  }

  /** `WalkPage` for a walk already under way: `whole` is what the requests
      `done` so far followed by the walk from `url` come to. */
  lemma WalkAdvance<A>(cfg: Config, t: Transport, m: Method, url: string, acc: A,
                       step: (A, Reply) -> Result<A>, fuel: nat, done: seq<Request>, whole: Run<A>)
    requires m == GET || !cfg.dryRun
    requires Walk(cfg, t, m, url, acc, step, fuel).Some?
    requires whole == After(done, Walk(cfg, t, m, url, acc, step, fuel).value)
    ensures fuel > 0
    ensures var p := Page(cfg, t, m, url, acc, step);
      && (p.result.Err? ==> whole == Run(Err(p.result.error), done + p.sent))
      && (p.result.Ok? ==>
            && Remaining(cfg, t, m, p.result.value.0, p.result.value.1, step, fuel - 1).Some?
            && whole == After(done + p.sent, Remaining(cfg, t, m, p.result.value.0, p.result.value.1, step, fuel - 1).value))
  {
    WalkPage(cfg, t, m, url, acc, step, fuel);
    var p := Page(cfg, t, m, url, acc, step);
    if p.result.Ok? {
      var rest := Remaining(cfg, t, m, p.result.value.0, p.result.value.1, step, fuel - 1).value;
      assert done + (p.sent + rest.sent) == (done + p.sent) + rest.sent;
    }
  }

  /** Every request of a walk that ends, however it ends, uses the walk's method. */
  lemma {:induction false} WalkVerbs<A>(cfg: Config, t: Transport, m: Method, url: string, acc: A,
                                        step: (A, Reply) -> Result<A>, fuel: nat)
    requires m == GET || !cfg.dryRun
    requires Walk(cfg, t, m, url, acc, step, fuel).Some?
    ensures var sent := Walk(cfg, t, m, url, acc, step, fuel).value.sent;
      forall i :: 0 <= i < |sent| ==> sent[i].verb == m
    decreases fuel
  {
    WalkPage(cfg, t, m, url, acc, step, fuel);
    var p := Page(cfg, t, m, url, acc, step);
    if p.result.Ok? && p.result.value.0.Some? {
      var next, acc' := p.result.value.0.value, p.result.value.1;
      WalkVerbs(cfg, t, m, next, acc', step, fuel - 1);
      var rest := Walk(cfg, t, m, next, acc', step, fuel - 1).value.sent;
      forall i | |p.sent| <= i < |p.sent + rest| ensures (p.sent + rest)[i].verb == m {
        assert (p.sent + rest)[i] == rest[i - |p.sent|];
      }
    }
  }

  /** Folding a run of pages, in order; the first failing step wins. */
  function FoldPages<A>(step: (A, Reply) -> Result<A>, acc: A, replies: seq<Reply>): Result<A>
    decreases |replies|
  {
    if |replies| == 0 then Ok(acc)
    else
      match step(acc, replies[0])
      case Err(e) => Err(e)
      case Ok(acc') => FoldPages(step, acc', replies[1..])
  }

  /** A page the walk got: delivered, not an error status, and its `Link`
      header parsed. */
  predicate Fetched(t: Transport, rq: Request, reply: Reply) {
    t(rq) == Ok(reply) && !IsErrorStatus(reply.status) && PageNext(reply.link).Ok?
  }

  /** One page of a successful walk: what the first request was, what it got,
      and that the rest of the walk, if any, starts from its `next` link. */
  lemma WalkFirst<A>(cfg: Config, t: Transport, m: Method, url: string, acc: A,
                     step: (A, Reply) -> Result<A>, fuel: nat, a: A, sent: seq<Request>)
    returns (reply: Reply, next: Option<string>, acc': A, rest: seq<Request>)
    requires m == GET || !cfg.dryRun
    requires Walk(cfg, t, m, url, acc, step, fuel) == Some(Run(Ok(a), sent))
    ensures fuel > 0 && 0 < |sent| && |sent| == |rest| + 1 && sent[1..] == rest
    ensures sent[0].verb == m && sent[0].url == NormalizeUrl(url) && sent[0].body == NoBody
    ensures Fetched(t, sent[0], reply) && PageNext(reply.link) == Ok(next)
    ensures step(acc, reply) == Ok(acc')
    ensures next.None? ==> rest == [] && a == acc'
    ensures next.Some? ==> Walk(cfg, t, m, next.value, acc', step, fuel - 1) == Some(Run(Ok(a), rest))
  {
    var p := Page(cfg, t, m, url, acc, step);
    var c := Checked(cfg, t, m, url, NoBody);
    reply := c.result.value;
    next := PageNext(reply.link).value;
    acc' := step(acc, reply).value;
    rest := sent[1..];
    var rq := Req(cfg, m, url, NoBody).value;
    assert c.sent == [rq];
  }

  /** The request went to the `next` link that the reply named. */
  predicate LeadsTo(reply: Reply, rq: Request) {
    reply.link.Links? && NextLink(reply.link.links).Some? && rq.url == NormalizeUrl(NextLink(reply.link.links).value)
  }

  /** The requests and pages of a walk that ended with `a`, page by page:
      each request used method `m` and got its page; the step folded the page
      in; each page but the last led to the next request, and the last named
      no next page. */
  ghost predicate Chain<A>(t: Transport, m: Method, step: (A, Reply) -> Result<A>, acc: A, a: A,
                     sent: seq<Request>, replies: seq<Reply>)
    decreases |sent|
  {
    && 0 < |sent| == |replies|
    && sent[0].verb == m && Fetched(t, sent[0], replies[0])
    && step(acc, replies[0]).Ok?
    && if |sent| == 1 then PageNext(replies[0].link) == Ok(None) && step(acc, replies[0]).value == a
       else LeadsTo(replies[0], sent[1]) && Chain(t, m, step, step(acc, replies[0]).value, a, sent[1..], replies[1..])
  }

  /** A walk that finishes with `a` is a chain of pages from its starting URL. */
  lemma {:induction false} WalkChain<A>(cfg: Config, t: Transport, m: Method, url: string, acc: A,
                                        step: (A, Reply) -> Result<A>, fuel: nat, a: A, sent: seq<Request>)
    returns (replies: seq<Reply>)
    requires m == GET || !cfg.dryRun
    requires Walk(cfg, t, m, url, acc, step, fuel) == Some(Run(Ok(a), sent))
    ensures 0 < |sent| <= fuel && sent[0].url == NormalizeUrl(url)
    ensures Chain(t, m, step, acc, a, sent, replies)
    decreases fuel
  {
    var reply, next, acc', rest := WalkFirst(cfg, t, m, url, acc, step, fuel, a, sent);
    if next.None? {
      replies := [reply];
    } else {
      var tail := WalkChain(cfg, t, m, next.value, acc', step, fuel - 1, a, rest);
      replies := [reply] + tail;
      assert replies[1..] == tail;
      assert LeadsTo(reply, rest[0]);
    }
  }

  /** What a chain says, request by request: one page per request, each got
      with method `m`; each page but the last leads to the next request; the
      last page names no next page; and the fold of the pages, in order, is `a`. */
  lemma {:induction false} ChainPages<A>(t: Transport, m: Method, step: (A, Reply) -> Result<A>, acc: A, a: A,
                                         sent: seq<Request>, replies: seq<Reply>)
    requires Chain(t, m, step, acc, a, sent, replies)
    ensures 0 < |replies| == |sent|
    ensures forall k :: 0 <= k < |sent| ==> sent[k].verb == m && Fetched(t, sent[k], replies[k])
    ensures forall j, k :: 0 <= j && k == j + 1 < |sent| ==> LeadsTo(replies[j], sent[k])
    ensures PageNext(replies[|replies| - 1].link) == Ok(None)
    ensures FoldPages(step, acc, replies) == Ok(a)
    decreases |sent|
  {
    var acc' := step(acc, replies[0]).value;
    FoldFirst(step, acc, replies, acc');
    if |sent| > 1 {
      var rest, tail := sent[1..], replies[1..];
      ChainPages(t, m, step, acc', a, rest, tail);
      forall k | 1 <= k < |sent| ensures sent[k].verb == m && Fetched(t, sent[k], replies[k]) {
        assert sent[k] == rest[k - 1] && replies[k] == tail[k - 1];
      }
      forall j, k | 1 <= j && k == j + 1 < |sent| ensures LeadsTo(replies[j], sent[k]) {
        assert sent[k] == rest[j] && replies[j] == tail[j - 1];
      }
      assert replies[|replies| - 1] == tail[|tail| - 1];
    }
  }

  /** The requests a walk builds: method `m`, the token's `Authorization`
      value, and no body. */
  predicate WalkRequests(cfg: Config, m: Method, sent: seq<Request>) {
    forall k :: 0 <= k < |sent| ==>
      sent[k].verb == m && sent[k].authorization == Authorization(cfg.token) && sent[k].body == NoBody
  }

  /** Conversely: when the token is a valid header, a chain of pages starting
      at `url`, whose requests are the ones a walk builds, makes the walk
      finish, given enough fuel, with the chain's result and requests. */
  lemma {:induction false} ChainWalk<A>(cfg: Config, t: Transport, m: Method, url: string, acc: A,
                                        step: (A, Reply) -> Result<A>, fuel: nat, a: A,
                                        sent: seq<Request>, replies: seq<Reply>)
    requires m == GET || !cfg.dryRun
    requires HeaderOk(cfg)
    requires Chain(t, m, step, acc, a, sent, replies)
    requires sent[0].url == NormalizeUrl(url) && WalkRequests(cfg, m, sent)
    requires |sent| <= fuel
    ensures Walk(cfg, t, m, url, acc, step, fuel) == Some(Run(Ok(a), sent))
    decreases |sent|
  {
    var reply := replies[0];
    assert Req(cfg, m, url, NoBody) == Ok(sent[0]);
    var p := Page(cfg, t, m, url, acc, step);
    var acc' := step(acc, reply).value;
    assert p.sent == [sent[0]];
    if |sent| == 1 {
      assert p.result == Ok((None, acc'));
      assert [sent[0]] == sent;
    } else {
      var next := NextLink(reply.link.links).value;
      assert p.result == Ok((Some(next), acc'));
      ChainWalk(cfg, t, m, next, acc', step, fuel - 1, a, sent[1..], replies[1..]);
      assert [sent[0]] + sent[1..] == sent;
    }
  }

  /** Folding pages is folding the first and then the rest. */
  lemma FoldFirst<A>(step: (A, Reply) -> Result<A>, acc: A, replies: seq<Reply>, acc': A)
    requires 0 < |replies| && step(acc, replies[0]) == Ok(acc')
    ensures FoldPages(step, acc, replies) == FoldPages(step, acc', replies[1..])
  {
  }

  // ---------------------------------------------------------------------
  // The steps of the paginated readers

  function AsOwnerIds(p: Payload): Option<seq<nat>> { if p.OwnersJson? then Some(p.ownerIds) else None }
  function AsTeams(p: Payload): Option<seq<Team>> { if p.TeamsJson? then Some(p.teams) else None }
  function AsRepoTeams(p: Payload): Option<seq<RepoTeam>> { if p.RepoTeamsJson? then Some(p.repoTeams) else None }
  function AsRepoUsers(p: Payload): Option<seq<RepoUser>> { if p.RepoUsersJson? then Some(p.repoUsers) else None }
  function AsBranches(p: Payload): Option<seq<Branch>> { if p.BranchesJson? then Some(p.branches) else None }

  /** The items of every page, in order, if every page decodes. */
  function Collected<T>(decode: Payload -> Option<seq<T>>, replies: seq<Reply>): (r: Option<seq<T>>)
    ensures r.Some? <==> forall k :: 0 <= k < |replies| ==> decode(replies[k].body).Some?
    decreases |replies|
  {
    if |replies| == 0 then Some([])
    else
      var rest := Collected(decode, replies[1..]);
      assert forall k :: 1 <= k < |replies| ==> replies[1..][k - 1] == replies[k];
      match decode(replies[0].body)
      case None => None
      case Some(items) => if rest.None? then None else Some(items + rest.value)
  }

  /** Owners: the ids of every page go into a set. */
  function OwnersStep(owners: set<nat>, reply: Reply): Result<set<nat>> {
    var ids :- Decoded(AsOwnerIds(reply.body));
    Ok(owners + set id | id in ids)
  }

  /** Organization teams: the names of every page go into a set. */
  function TeamNamesStep(names: set<string>, reply: Reply): Result<set<string>> {
    var teams :- Decoded(AsTeams(reply.body));
    Ok(names + set team | team in teams :: team.name)
  }

  /** Repository teams: every page is appended, in order. */
  function RepoTeamsStep(teams: seq<RepoTeam>, reply: Reply): Result<seq<RepoTeam>> {
    var page :- Decoded(AsRepoTeams(reply.body));
    Ok(teams + page)
  }

  /** Direct collaborators: every page is appended, in order. */
  function CollaboratorsStep(users: seq<RepoUser>, reply: Reply): Result<seq<RepoUser>> {
    var page :- Decoded(AsRepoUsers(reply.body));
    Ok(users + page)
  }

  /** Protected branches: the names of every page go into a set. */
  function BranchNamesStep(names: set<string>, reply: Reply): Result<set<string>> {
    var branches :- Decoded(AsBranches(reply.body));
    Ok(names + set branch | branch in branches :: branch.name)
  }

  /** Folding repository-team pages appends the items of every page in
      order, and fails exactly when some page does not decode. */
  lemma {:induction false} RepoTeamsFold(acc: seq<RepoTeam>, replies: seq<Reply>)
    ensures var c := Collected(AsRepoTeams, replies);
      FoldPages(RepoTeamsStep, acc, replies) == if c.Some? then Ok(acc + c.value) else Err(Undecodable)
    decreases |replies|
  {
    if |replies| == 0 {
      assert acc + [] == acc;
    } else {
      var page := AsRepoTeams(replies[0].body);
      if page.Some? {
        assert FoldPages(RepoTeamsStep, acc, replies) == FoldPages(RepoTeamsStep, acc + page.value, replies[1..]);
        RepoTeamsFold(acc + page.value, replies[1..]);
        var c := Collected(AsRepoTeams, replies[1..]);
        if c.Some? {
          assert acc + page.value + c.value == acc + (page.value + c.value);
        }
      }
    }
  }

  /** The same for direct collaborators. */
  lemma {:induction false} CollaboratorsFold(acc: seq<RepoUser>, replies: seq<Reply>)
    ensures var c := Collected(AsRepoUsers, replies);
      FoldPages(CollaboratorsStep, acc, replies) == if c.Some? then Ok(acc + c.value) else Err(Undecodable)
    decreases |replies|
  {
    if |replies| == 0 {
      assert acc + [] == acc;
    } else {
      var page := AsRepoUsers(replies[0].body);
      if page.Some? {
        assert FoldPages(CollaboratorsStep, acc, replies) == FoldPages(CollaboratorsStep, acc + page.value, replies[1..]);
        CollaboratorsFold(acc + page.value, replies[1..]);
        var c := Collected(AsRepoUsers, replies[1..]);
        if c.Some? {
          assert acc + page.value + c.value == acc + (page.value + c.value);
        }
      }
    }
  }

  /** Folding owner pages collects exactly the ids of every page, and fails
      exactly when some page does not decode. */
  lemma {:induction false} OwnersFold(acc: set<nat>, replies: seq<Reply>)
    ensures var c := Collected(AsOwnerIds, replies);
      FoldPages(OwnersStep, acc, replies) == if c.Some? then Ok(acc + set id | id in c.value) else Err(Undecodable)
    decreases |replies|
  {
    if |replies| == 0 {
      var c := Collected(AsOwnerIds, replies);
      assert c.value == [] && (set id | id in c.value) == {};
      assert acc + (set id | id in c.value) == acc;
    } else {
      var page := AsOwnerIds(replies[0].body);
      if page.Some? {
        var ids := page.value;
        var acc' := acc + set id | id in ids;
        assert FoldPages(OwnersStep, acc, replies) == FoldPages(OwnersStep, acc', replies[1..]);
        OwnersFold(acc', replies[1..]);
        var c := Collected(AsOwnerIds, replies[1..]);
        if c.Some? {
          assert Collected(AsOwnerIds, replies) == Some(ids + c.value);
          assert (set id | id in ids + c.value) == (set id | id in ids) + (set id | id in c.value);
          assert acc' + (set id | id in c.value) == acc + (set id | id in ids + c.value);
        }
      }
    }
  }

  /** Folding team pages collects exactly the team names of every page. */
  lemma {:induction false} TeamNamesFold(acc: set<string>, replies: seq<Reply>)
    ensures var c := Collected(AsTeams, replies);
      FoldPages(TeamNamesStep, acc, replies) ==
        if c.Some? then Ok(acc + set team | team in c.value :: team.name) else Err(Undecodable)
    decreases |replies|
  {
    if |replies| == 0 {
      var c := Collected(AsTeams, replies);
      assert c.value == [] && (set team | team in c.value :: team.name) == {};
      assert acc + (set team | team in c.value :: team.name) == acc;
    } else {
      var page := AsTeams(replies[0].body);
      if page.Some? {
        var teams := page.value;
        var acc' := acc + set team | team in teams :: team.name;
        assert FoldPages(TeamNamesStep, acc, replies) == FoldPages(TeamNamesStep, acc', replies[1..]);
        TeamNamesFold(acc', replies[1..]);
        var c := Collected(AsTeams, replies[1..]);
        if c.Some? {
          assert Collected(AsTeams, replies) == Some(teams + c.value);
          assert (set team | team in teams + c.value :: team.name) ==
                 (set team | team in teams :: team.name) + (set team | team in c.value :: team.name);
          assert acc' + (set team | team in c.value :: team.name) == acc + (set team | team in teams + c.value :: team.name);
        }
      }
    }
  }

  /** Folding branch pages collects exactly the branch names of every page. */
  lemma {:induction false} BranchNamesFold(acc: set<string>, replies: seq<Reply>)
    ensures var c := Collected(AsBranches, replies);
      FoldPages(BranchNamesStep, acc, replies) ==
        if c.Some? then Ok(acc + set branch | branch in c.value :: branch.name) else Err(Undecodable)
    decreases |replies|
  {
    if |replies| == 0 {
      var c := Collected(AsBranches, replies);
      assert c.value == [] && (set branch | branch in c.value :: branch.name) == {};
      assert acc + (set branch | branch in c.value :: branch.name) == acc;
    } else {
      var page := AsBranches(replies[0].body);
      if page.Some? {
        var branches := page.value;
        var acc' := acc + set branch | branch in branches :: branch.name;
        assert FoldPages(BranchNamesStep, acc, replies) == FoldPages(BranchNamesStep, acc', replies[1..]);
        BranchNamesFold(acc', replies[1..]);
        var c := Collected(AsBranches, replies[1..]);
        if c.Some? {
          assert Collected(AsBranches, replies) == Some(branches + c.value);
          assert (set branch | branch in branches + c.value :: branch.name) ==
                 (set branch | branch in branches :: branch.name) + (set branch | branch in c.value :: branch.name);
          assert acc' + (set branch | branch in c.value :: branch.name) == acc + (set branch | branch in branches + c.value :: branch.name);
        }
      }
    }
  }
}
