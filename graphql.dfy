/** The GraphQL engine: one query against the single GraphQL endpoint with
    its envelope unwrapped, the batched lookup of usernames by user id, and
    the cursor-paginated walk over a team's member connection. */
module GraphQL {
  import opened Results
  import opened Wire
  import opened Http
  import opened NodeId

  const UsernamesQuery: string :=
    "query($ids: [ID!]!) { nodes(ids: $ids) { ... on User { databaseId login } } }"

  const MembersQuery: string :=
    "query($team: ID!, $cursor: String) { node(id: $team) { ... on Team { members(after: $cursor) { "
    + "pageInfo { endCursor hasNextPage } edges { role node { databaseId login } } } } } }"

  /** Ids go to the platform in batches of this size. */
  const ChunkSize: nat := 100

  // ---------------------------------------------------------------------
  // One query

  /** The envelope's verdict: the first error wins over any data; data is
      returned only when there are no errors; neither is its own error. */
  function Unwrap<T>(env: GraphResult<T>): (r: Result<T>)
    ensures r.Ok? <==> |env.errors| == 0 && env.data.Some?
    ensures r.Ok? ==> r.value == env.data.value
    ensures |env.errors| > 0 ==> r == Err(GraphQLFailure(env.errors[0].message))
    ensures |env.errors| == 0 && env.data.None? ==> r == Err(MissingGraphQLData)
  {
    if |env.errors| > 0 then Err(GraphQLFailure(env.errors[0].message))
    else if env.data.Some? then Ok(env.data.value)
    else Err(MissingGraphQLData)
  }

  /** The request a GraphQL call sends when the token is a valid header value. */
  function GraphQLRequest(cfg: Config, query: string, vars: Variables): Request {
    Request(POST, ApiOrigin + GraphQLPath, Authorization(cfg.token), GraphQLBody(query, vars))
  }

  /** What the transport's answer to a GraphQL request comes to: transport
      and status errors first, then decoding, then the envelope. */
  function Answer<R>(t: Transport, rq: Request, decode: Payload -> Option<GraphResult<R>>): Result<R> {
    match t(rq)
    case Err(e) => Err(e)
    case Ok(reply) =>
      match ErrorForStatus(reply)
      case Err(e) => Err(e)
      case Ok(_) =>
        match decode(reply.body)
        case None => Err(Undecodable)
        case Some(env) => Unwrap(env)
  }

  /** `graphql`: one POST to the GraphQL endpoint. */
  function Query<R>(cfg: Config, t: Transport, query: string, vars: Variables,
                    decode: Payload -> Option<GraphResult<R>>): (r: Run<R>)
    ensures HeaderOk(cfg) ==> r.sent == [GraphQLRequest(cfg, query, vars)]
    ensures HeaderOk(cfg) ==> r.result == Answer(t, GraphQLRequest(cfg, query, vars), decode)
    ensures !HeaderOk(cfg) ==> r == Run(Err(InvalidHeader), [])
  {
    GraphQLEndpoint(cfg);
    match Req(cfg, POST, GraphQLPath, GraphQLBody(query, vars))
    case Err(e) => Run(Err(e), [])
    case Ok(rq) => Run(Answer(t, rq, decode), [rq])
  }

  // ---------------------------------------------------------------------
  // Merging into a map

  /** Inserting key/value pairs in order, as repeated `HashMap::insert` does. */
  function InsertAll<K, V>(m: map<K, V>, kvs: seq<(K, V)>): map<K, V>
    decreases |kvs|
  {
    if |kvs| == 0 then m
    else
      var last := kvs[|kvs| - 1];
      InsertAll(m, kvs[..|kvs| - 1])[last.0 := last.1]
  }

  /** The keys afterwards are the keys before and the keys of the pairs. */
  lemma {:induction false} InsertAllKeys<K, V>(m: map<K, V>, kvs: seq<(K, V)>)
    ensures InsertAll(m, kvs).Keys == m.Keys + set i | 0 <= i < |kvs| :: kvs[i].0
    decreases |kvs|
  {
    if |kvs| > 0 {
      var init := kvs[..|kvs| - 1];
      InsertAllKeys(m, init);
      assert forall i :: 0 <= i < |kvs| - 1 ==> init[i] == kvs[i];
    }
  }

  /** The last pair with a given key decides its value. */
  lemma {:induction false} InsertAllLastWins<K, V>(m: map<K, V>, kvs: seq<(K, V)>, i: nat)
    requires i < |kvs|
    requires forall j :: i < j < |kvs| ==> kvs[j].0 != kvs[i].0
    ensures kvs[i].0 in InsertAll(m, kvs) && InsertAll(m, kvs)[kvs[i].0] == kvs[i].1
    decreases |kvs|
  {
    if i < |kvs| - 1 {
      var init := kvs[..|kvs| - 1];
      assert init[i] == kvs[i];
      InsertAllLastWins(m, init, i);
    }
  }

  /** A key that no pair mentions keeps its value. */
  lemma {:induction false} InsertAllKeeps<K, V>(m: map<K, V>, kvs: seq<(K, V)>, k: K)
    requires k in m
    requires forall j :: 0 <= j < |kvs| ==> kvs[j].0 != k
    ensures k in InsertAll(m, kvs) && InsertAll(m, kvs)[k] == m[k]
    decreases |kvs|
  {
    if |kvs| > 0 {
      InsertAllKeeps(m, kvs[..|kvs| - 1], k);
    }
  }

  /** Inserting two runs of pairs is inserting their concatenation. */
  lemma {:induction false} InsertAllConcat<K, V>(m: map<K, V>, a: seq<(K, V)>, b: seq<(K, V)>)
    ensures InsertAll(InsertAll(m, a), b) == InsertAll(m, a + b)
    decreases |b|
  {
    if |b| == 0 {
      assert a + b == a;
    } else {
      assert (a + b)[..|a + b| - 1] == a + b[..|b| - 1];
      InsertAllConcat(m, a, b[..|b| - 1]);
    }
  }

  // ---------------------------------------------------------------------
  // Usernames by id

  /** The node ids of a batch of user ids, in order. */
  function UserNodeIds(ids: seq<nat>): (r: seq<string>)
    ensures |r| == |ids| && forall i :: 0 <= i < |ids| ==> r[i] == UserNodeId(ids[i])
  {
    seq(|ids|, i requires 0 <= i < |ids| => UserNodeId(ids[i]))
  }

  /** The (id, login) pairs of the non-null nodes, in order; null nodes are skipped. */
  function NodePairs(nodes: seq<Option<UserNode>>): (kvs: seq<(nat, string)>)
    ensures |kvs| <= |nodes|
    ensures forall k: nat, v: string :: (k, v) in kvs <==> exists i :: 0 <= i < |nodes| && nodes[i] == Some(UserNode(k, v))
    decreases |nodes|
  {
    if |nodes| == 0 then []
    else
      var init := nodes[..|nodes| - 1];
      var last := nodes[|nodes| - 1];
      assert forall i :: 0 <= i < |nodes| - 1 ==> init[i] == nodes[i];
      NodePairs(init) + (if last.Some? then [(last.value.databaseId, last.value.login)] else [])
  }

  /** `ids.chunks(n)`: consecutive slices of length `n`, the last one shorter. */
  function Chunks<T>(s: seq<T>, n: nat): seq<seq<T>>
    requires n > 0
    decreases |s|
  {
    if |s| == 0 then []
    else if |s| <= n then [s]
    else [s[..n]] + Chunks(s[n..], n)
  }

  function Concat<T>(ss: seq<seq<T>>): seq<T>
    decreases |ss|
  {
    if |ss| == 0 then [] else ss[0] + Concat(ss[1..])
  }

  /** There are ceil(|s| / 100) chunks, none empty, none longer than 100,
      and together they are `s` in order. */
  lemma {:induction false} ChunksProperties<T>(s: seq<T>)
    ensures |Chunks(s, ChunkSize)| == (|s| + 99) / 100
    ensures forall k :: 0 <= k < |Chunks(s, ChunkSize)| ==> 0 < |Chunks(s, ChunkSize)[k]| <= ChunkSize
    ensures Concat(Chunks(s, ChunkSize)) == s
    decreases |s|
  {
    var cs := Chunks(s, ChunkSize);
    if |s| == 0 {
    } else if |s| <= ChunkSize {
      assert Concat(cs) == s + Concat([]);
    } else {
      ChunksProperties(s[ChunkSize..]);
      assert cs[1..] == Chunks(s[ChunkSize..], ChunkSize);
      assert s[..ChunkSize] + s[ChunkSize..] == s;
    }
  }

  /** The requests of the batched lookup, chunk after chunk, until one fails. */
  function Lookup(cfg: Config, t: Transport, chunks: seq<seq<nat>>, acc: map<nat, string>): Run<map<nat, string>>
    decreases |chunks|
  {
    if |chunks| == 0 then Run(Ok(acc), [])
    else
      var q := Query(cfg, t, UsernamesQuery, NodeIds(UserNodeIds(chunks[0])), AsNodes);
      match q.result
      case Err(e) => Run(Err(e), q.sent)
      case Ok(nodes) => After(q.sent, Lookup(cfg, t, chunks[1..], InsertAll(acc, NodePairs(nodes))))
  }

  /** A lookup of at least one chunk is the query for its first chunk
      followed by the lookup of the rest. */
  lemma LookupStep(cfg: Config, t: Transport, chunks: seq<seq<nat>>, k: nat, acc: map<nat, string>)
    requires k < |chunks|
    ensures var q := Query(cfg, t, UsernamesQuery, NodeIds(UserNodeIds(chunks[k])), AsNodes);
      && (q.result.Err? ==> Lookup(cfg, t, chunks[k..], acc) == Run(Err(q.result.error), q.sent))
      && (q.result.Ok? ==>
            Lookup(cfg, t, chunks[k..], acc) == After(q.sent, Lookup(cfg, t, chunks[k + 1..], InsertAll(acc, NodePairs(q.result.value)))))
  {
    assert chunks[k..][0] == chunks[k] && chunks[k..][1..] == chunks[k + 1..];
  }

  /** `usernames`: the logins of the given user ids. */
  function Usernames(cfg: Config, t: Transport, ids: seq<nat>): Run<map<nat, string>> {
    Lookup(cfg, t, Chunks(ids, ChunkSize), map[])
  }

  /** Inserting one more pair, or none. */
  lemma InsertAllSnoc<K, V>(m: map<K, V>, kvs: seq<(K, V)>, more: seq<(K, V)>)
    requires |more| <= 1
    ensures InsertAll(m, kvs + more) == if |more| == 0 then InsertAll(m, kvs) else InsertAll(m, kvs)[more[0].0 := more[0].1]
  {
    if |more| == 0 {
      assert kvs + more == kvs;
    } else {
      assert (kvs + more)[..|kvs + more| - 1] == kvs;
    }
  }

  /** The insertion loop of `usernames`: every non-null node, in order. */
  method InsertNodes(m: map<nat, string>, nodes: seq<Option<UserNode>>) returns (r: map<nat, string>)
    ensures r == InsertAll(m, NodePairs(nodes))
  {
    r := m;
    var j := 0;
    while j < |nodes|
      invariant 0 <= j <= |nodes|
      invariant r == InsertAll(m, NodePairs(nodes[..j]))
    {
      assert nodes[..j + 1][..j] == nodes[..j];
      InsertAllSnoc(m, NodePairs(nodes[..j]), if nodes[j].Some? then [(nodes[j].value.databaseId, nodes[j].value.login)] else []);
      if nodes[j].Some? {
        r := r[nodes[j].value.databaseId := nodes[j].value.login];
      }
      j := j + 1;
    }
    assert nodes[..j] == nodes;
  }

  function AllNodePairs(pages: seq<seq<Option<UserNode>>>): seq<(nat, string)>
    decreases |pages|
  {
    if |pages| == 0 then [] else NodePairs(pages[0]) + AllNodePairs(pages[1..])
  }

  /** The k-th request of a lookup carries the node ids of the k-th chunk;
      a lookup that succeeds sends one request per chunk, and its map is what
      inserting the non-null nodes of every answer, in order, gives. */
  lemma {:induction false} LookupRequests(cfg: Config, t: Transport, chunks: seq<seq<nat>>, acc: map<nat, string>)
    returns (answers: seq<seq<Option<UserNode>>>)
    ensures var run := Lookup(cfg, t, chunks, acc);
      && |run.sent| <= |chunks|
      && (forall k :: 0 <= k < |run.sent| ==>
            run.sent[k] == GraphQLRequest(cfg, UsernamesQuery, NodeIds(UserNodeIds(chunks[k]))))
    ensures var run := Lookup(cfg, t, chunks, acc);
      run.result.Ok? ==>
        && |run.sent| == |chunks| == |answers|
        && (forall k :: 0 <= k < |chunks| ==> Answer(t, run.sent[k], AsNodes) == Ok(answers[k]))
        && run.result.value == InsertAll(acc, AllNodePairs(answers))
    decreases |chunks|
  {
    answers := [];
    if |chunks| > 0 {
      var q := Query(cfg, t, UsernamesQuery, NodeIds(UserNodeIds(chunks[0])), AsNodes);
      if q.result.Ok? {
        var nodes := q.result.value;
        var acc' := InsertAll(acc, NodePairs(nodes));
        var rest := LookupRequests(cfg, t, chunks[1..], acc');
        answers := [nodes] + rest;
        var run := Lookup(cfg, t, chunks, acc);
        var tail := Lookup(cfg, t, chunks[1..], acc');
        assert run.sent == q.sent + tail.sent;
        forall k | 1 <= k < |run.sent|
          ensures run.sent[k] == GraphQLRequest(cfg, UsernamesQuery, NodeIds(UserNodeIds(chunks[k])))
        {
          assert run.sent[k] == tail.sent[k - 1] && chunks[1..][k - 1] == chunks[k];
        }
        if run.result.Ok? {
          forall k | 1 <= k < |chunks| ensures Answer(t, run.sent[k], AsNodes) == Ok(answers[k]) {
            assert run.sent[k] == tail.sent[k - 1] && answers[k] == rest[k - 1];
          }
          assert AllNodePairs(answers) == NodePairs(nodes) + AllNodePairs(rest) by {
            assert answers[1..] == rest;
          }
          InsertAllConcat(acc, NodePairs(nodes), AllNodePairs(rest));
        }
      }
    }
  }

  /** `usernames` on success sends ceil(|ids| / 100) queries, the k-th with
      the node ids of the k-th chunk, each chunk of 1 to 100 ids and the
      chunks making up `ids` in order; its map holds exactly the ids of the
      non-null nodes answered, the last answer for an id winning. */
  lemma UsernamesBatches(cfg: Config, t: Transport, ids: seq<nat>) returns (answers: seq<seq<Option<UserNode>>>)
    requires Usernames(cfg, t, ids).result.Ok?
    ensures var run := Usernames(cfg, t, ids); var chunks := Chunks(ids, ChunkSize);
      && |run.sent| == |chunks| == (|ids| + 99) / 100 == |answers|
      && Concat(chunks) == ids
      && (forall k :: 0 <= k < |chunks| ==> 0 < |chunks[k]| <= ChunkSize)
      && (forall k :: 0 <= k < |chunks| ==>
            run.sent[k] == GraphQLRequest(cfg, UsernamesQuery, NodeIds(UserNodeIds(chunks[k]))))
      && (forall k :: 0 <= k < |chunks| ==> Answer(t, run.sent[k], AsNodes) == Ok(answers[k]))
      && run.result.value == InsertAll(map[], AllNodePairs(answers))
  {
    ChunksProperties(ids);
    answers := LookupRequests(cfg, t, Chunks(ids, ChunkSize), map[]);
  }

  /** Conversely: when the token is a valid header and every chunk's query
      is answered, the lookup succeeds, sends one query per chunk, and its map
      is every answer's non-null nodes inserted in order. */
  lemma {:induction false} LookupSucceeds(cfg: Config, t: Transport, chunks: seq<seq<nat>>, acc: map<nat, string>,
                                          answers: seq<seq<Option<UserNode>>>)
    requires HeaderOk(cfg)
    requires |answers| == |chunks|
    requires forall k :: 0 <= k < |chunks| ==>
               Answer(t, GraphQLRequest(cfg, UsernamesQuery, NodeIds(UserNodeIds(chunks[k]))), AsNodes) == Ok(answers[k])
    ensures Lookup(cfg, t, chunks, acc).result == Ok(InsertAll(acc, AllNodePairs(answers)))
    ensures |Lookup(cfg, t, chunks, acc).sent| == |chunks|
    decreases |chunks|
  {
    if |chunks| > 0 {
      var q := Query(cfg, t, UsernamesQuery, NodeIds(UserNodeIds(chunks[0])), AsNodes);
      assert q.result == Ok(answers[0]);
      var acc' := InsertAll(acc, NodePairs(answers[0]));
      forall k | 0 <= k < |chunks[1..]|
        ensures Answer(t, GraphQLRequest(cfg, UsernamesQuery, NodeIds(UserNodeIds(chunks[1..][k]))), AsNodes) == Ok(answers[1..][k])
      {
        assert chunks[1..][k] == chunks[k + 1] && answers[1..][k] == answers[k + 1];
      }
      LookupSucceeds(cfg, t, chunks[1..], acc', answers[1..]);
      InsertAllConcat(acc, NodePairs(answers[0]), AllNodePairs(answers[1..]));
    }
  }

  // ---------------------------------------------------------------------
  // Team memberships

  /** The membership entries of a page of edges, keyed by database id. */
  function EdgePairs(edges: seq<Edge>): (kvs: seq<(nat, TeamMember)>)
    ensures |kvs| == |edges|
    ensures forall i :: 0 <= i < |edges| ==>
              kvs[i] == (edges[i].node.databaseId, TeamMember(edges[i].node.login, edges[i].role))
  {
    seq(|edges|, i requires 0 <= i < |edges| => (edges[i].node.databaseId, TeamMember(edges[i].node.login, edges[i].role)))
  }

  /** The insertion loop of `team_memberships`: every edge of a page, in order. */
  method InsertEdges(m: map<nat, TeamMember>, edges: seq<Edge>) returns (r: map<nat, TeamMember>)
    ensures r == InsertAll(m, EdgePairs(edges))
  {
    r := m;
    var j := 0;
    while j < |edges|
      invariant 0 <= j <= |edges|
      invariant r == InsertAll(m, EdgePairs(edges[..j]))
    {
      assert EdgePairs(edges[..j + 1]) == EdgePairs(edges[..j]) + [EdgePairs(edges[..j + 1])[j]];
      InsertAllSnoc(m, EdgePairs(edges[..j]), [EdgePairs(edges[..j + 1])[j]]);
      r := r[edges[j].node.databaseId := TeamMember(edges[j].node.login, edges[j].role)];
      j := j + 1;
    }
    assert edges[..j] == edges;
  }

  function AllEdgePairs(pages: seq<Members>): seq<(nat, TeamMember)>
    decreases |pages|
  {
    if |pages| == 0 then [] else EdgePairs(pages[0].edges) + AllEdgePairs(pages[1..])
  }

  function MembersRequest(cfg: Config, team: string, cursor: Option<string>): Request {
    GraphQLRequest(cfg, MembersQuery, TeamCursor(team, cursor))
  }

  /** The member walk from a page info, given at most `fuel` more queries;
      `None` when it needs more. A null node leaves the page info as it was. */
  function MembersWalk(cfg: Config, t: Transport, team: string, info: PageInfo,
                       acc: map<nat, TeamMember>, fuel: nat): Option<Run<map<nat, TeamMember>>>
    decreases fuel
  {
    if !info.hasNextPage then Some(Run(Ok(acc), []))
    else if fuel == 0 then None
    else
      var q := Query(cfg, t, MembersQuery, TeamCursor(team, info.endCursor), AsTeamNode);
      match q.result
      case Err(e) => Some(Run(Err(e), q.sent))
      case Ok(node) =>
        var info' := if node.Some? then node.value.pageInfo else info;
        var acc' := if node.Some? then InsertAll(acc, EdgePairs(node.value.edges)) else acc;
        match MembersWalk(cfg, t, team, info', acc', fuel - 1)
        case None => None
        case Some(rest) => Some(After(q.sent, rest))
  }

  /** The page info and map after one answer: a null node leaves both as they were. */
  function Advance(info: PageInfo, acc: map<nat, TeamMember>, node: Option<Members>): (PageInfo, map<nat, TeamMember>) {
    if node.Some? then (node.value.pageInfo, InsertAll(acc, EdgePairs(node.value.edges))) else (info, acc)
  }

  /** A member walk with a next page that finishes is its first query
      followed by the walk from the state that query leads to. */
  lemma MembersStep(cfg: Config, t: Transport, team: string, info: PageInfo, acc: map<nat, TeamMember>, fuel: nat)
    requires info.hasNextPage
    requires MembersWalk(cfg, t, team, info, acc, fuel).Some?
    ensures fuel > 0
    ensures var q := Query(cfg, t, MembersQuery, TeamCursor(team, info.endCursor), AsTeamNode);
      && (q.result.Err? ==> MembersWalk(cfg, t, team, info, acc, fuel).value == Run(Err(q.result.error), q.sent))
      && (q.result.Ok? ==>
            var next := Advance(info, acc, q.result.value);
            && MembersWalk(cfg, t, team, next.0, next.1, fuel - 1).Some?
            && MembersWalk(cfg, t, team, info, acc, fuel).value == After(q.sent, MembersWalk(cfg, t, team, next.0, next.1, fuel - 1).value))
  {
  }

  /** Every request of a member walk that ends, however it ends, is a POST
      to the GraphQL endpoint. */
  lemma {:induction false} MembersWalkEndpoint(cfg: Config, t: Transport, team: string, info: PageInfo,
                                               acc: map<nat, TeamMember>, fuel: nat)
    requires MembersWalk(cfg, t, team, info, acc, fuel).Some?
    ensures var sent := MembersWalk(cfg, t, team, info, acc, fuel).value.sent;
      forall i :: 0 <= i < |sent| ==> sent[i].verb == POST && sent[i].url == ApiOrigin + GraphQLPath
    decreases fuel
  {
    if info.hasNextPage {
      MembersStep(cfg, t, team, info, acc, fuel);
      var q := Query(cfg, t, MembersQuery, TeamCursor(team, info.endCursor), AsTeamNode);
      if q.result.Ok? {
        var next := Advance(info, acc, q.result.value);
        MembersWalkEndpoint(cfg, t, team, next.0, next.1, fuel - 1);
        var rest := MembersWalk(cfg, t, team, next.0, next.1, fuel - 1).value.sent;
        forall i | |q.sent| <= i < |q.sent + rest|
          ensures (q.sent + rest)[i].verb == POST && (q.sent + rest)[i].url == ApiOrigin + GraphQLPath
        {
          assert (q.sent + rest)[i] == rest[i - |q.sent|];
        }
      }
    }
  }

  /** `team_memberships`: nothing for a team without an id, otherwise the
      walk from the start of the connection. */
  function Memberships(cfg: Config, t: Transport, team: Team, fuel: nat): Option<Run<map<nat, TeamMember>>> {
    match team.id
    case None => Some(Run(Ok(map[]), []))
    case Some(id) => MembersWalk(cfg, t, TeamNodeId(id), PageInfo.Start(), map[], fuel)
  }

  /** A null node repeats the same query, which gets the same answer, so the
      walk never finishes, whatever the fuel. */
  lemma {:induction false} NullNodeNeverFinishes(cfg: Config, t: Transport, team: string, info: PageInfo,
                                                acc: map<nat, TeamMember>, fuel: nat)
    requires info.hasNextPage
    requires Query(cfg, t, MembersQuery, TeamCursor(team, info.endCursor), AsTeamNode).result == Ok(None)
    ensures MembersWalk(cfg, t, team, info, acc, fuel) == None
    decreases fuel
  {
    if fuel > 0 {
      NullNodeNeverFinishes(cfg, t, team, info, acc, fuel - 1);
    }
  }

  /** The first step of a walk that finishes with a map: the query for the
      current cursor got a team node, and the rest of the walk, from that
      page's info with its edges inserted, finishes with the same map. */
  lemma MembersWalkFirst(cfg: Config, t: Transport, team: string, info: PageInfo,
                         acc: map<nat, TeamMember>, fuel: nat, m: map<nat, TeamMember>, sent: seq<Request>)
    returns (page: Members, rest: seq<Request>)
    requires info.hasNextPage
    requires MembersWalk(cfg, t, team, info, acc, fuel) == Some(Run(Ok(m), sent))
    ensures fuel > 0
    ensures Answer(t, MembersRequest(cfg, team, info.endCursor), AsTeamNode) == Ok(Some(page))
    ensures MembersWalk(cfg, t, team, page.pageInfo, InsertAll(acc, EdgePairs(page.edges)), fuel - 1) == Some(Run(Ok(m), rest))
    ensures sent == [MembersRequest(cfg, team, info.endCursor)] + rest
  {
    var q := Query(cfg, t, MembersQuery, TeamCursor(team, info.endCursor), AsTeamNode);
    if q.result == Ok(None) {
      NullNodeNeverFinishes(cfg, t, team, info, acc, fuel);
      assert false;
    }
    page := q.result.value.value;
    rest := MembersWalk(cfg, t, team, page.pageInfo, InsertAll(acc, EdgePairs(page.edges)), fuel - 1).value.sent;
  }

  /** The page had a next page, and the query went for it. */
  predicate Continues(cfg: Config, team: string, page: Members, rq: Request) {
    page.pageInfo.hasNextPage && rq == MembersRequest(cfg, team, page.pageInfo.endCursor)
  }

  /** The queries and pages of a member walk that ended with `m`, page by
      page: each query used the cursor it was given and got a team node; each
      page's edges were inserted; each page but the last had a next page,
      whose cursor the next query used, and the last had none. */
  ghost predicate MembersChain(cfg: Config, t: Transport, team: string, cursor: Option<string>,
                               acc: map<nat, TeamMember>, m: map<nat, TeamMember>,
                               sent: seq<Request>, pages: seq<Members>)
    decreases |sent|
  {
    && 0 < |sent| == |pages|
    && sent[0] == MembersRequest(cfg, team, cursor)
    && Answer(t, sent[0], AsTeamNode) == Ok(Some(pages[0]))
    && var acc' := InsertAll(acc, EdgePairs(pages[0].edges));
       if |sent| == 1 then !pages[0].pageInfo.hasNextPage && m == acc'
       else pages[0].pageInfo.hasNextPage &&
            MembersChain(cfg, t, team, pages[0].pageInfo.endCursor, acc', m, sent[1..], pages[1..])
  }

  /** A member walk that finishes with `m` is a chain of pages. */
  lemma {:induction false} MembersWalkChain(cfg: Config, t: Transport, team: string, info: PageInfo,
                                           acc: map<nat, TeamMember>, fuel: nat,
                                           m: map<nat, TeamMember>, sent: seq<Request>)
    returns (pages: seq<Members>)
    requires info.hasNextPage
    requires MembersWalk(cfg, t, team, info, acc, fuel) == Some(Run(Ok(m), sent))
    ensures MembersChain(cfg, t, team, info.endCursor, acc, m, sent, pages)
    decreases fuel
  {
    var page, rest := MembersWalkFirst(cfg, t, team, info, acc, fuel, m, sent);
    var acc' := InsertAll(acc, EdgePairs(page.edges));
    if !page.pageInfo.hasNextPage {
      pages := [page];
      assert MembersWalk(cfg, t, team, page.pageInfo, acc', fuel - 1) == Some(Run(Ok(acc'), []));
    } else {
      var tail := MembersWalkChain(cfg, t, team, page.pageInfo, acc', fuel - 1, m, rest);
      pages := [page] + tail;
      assert pages[1..] == tail && sent[1..] == rest;
    }
  }

  /** What a member chain says, query by query: one page per query, the
      first with the starting cursor and each later one with the end cursor
      of the page before, which had a next page; and the last page had none. */
  lemma {:induction false} MembersChainPages(cfg: Config, t: Transport, team: string, cursor: Option<string>,
                                            acc: map<nat, TeamMember>, m: map<nat, TeamMember>,
                                            sent: seq<Request>, pages: seq<Members>)
    requires MembersChain(cfg, t, team, cursor, acc, m, sent, pages)
    ensures 0 < |pages| == |sent|
    ensures sent[0] == MembersRequest(cfg, team, cursor)
    ensures forall k :: 0 <= k < |pages| ==> Answer(t, sent[k], AsTeamNode) == Ok(Some(pages[k]))
    ensures forall j, k :: 0 <= j && k == j + 1 < |pages| ==>
              Continues(cfg, team, pages[j], sent[k])
    ensures !pages[|pages| - 1].pageInfo.hasNextPage
    decreases |sent|
  {
    if |sent| > 1 {
      var page := pages[0];
      var rest, tail := sent[1..], pages[1..];
      assert page.pageInfo.hasNextPage;
      MembersChainPages(cfg, t, team, page.pageInfo.endCursor, InsertAll(acc, EdgePairs(page.edges)), m, rest, tail);
      forall k | 1 <= k < |pages| ensures Answer(t, sent[k], AsTeamNode) == Ok(Some(pages[k])) {
        assert sent[k] == rest[k - 1] && pages[k] == tail[k - 1];
      }
      forall j, k | 1 <= j && k == j + 1 < |pages|
        ensures Continues(cfg, team, pages[j], sent[k])
      {
        assert sent[k] == rest[j] && pages[j] == tail[j - 1];
      }
      assert sent[1] == rest[0];
      assert pages[|pages| - 1] == tail[|tail| - 1];
    }
  }

  /** The map of a member chain is what inserting every page's edges, in
      order, gives. */
  lemma {:induction false} MembersChainMap(cfg: Config, t: Transport, team: string, cursor: Option<string>,
                                          acc: map<nat, TeamMember>, m: map<nat, TeamMember>,
                                          sent: seq<Request>, pages: seq<Members>)
    requires MembersChain(cfg, t, team, cursor, acc, m, sent, pages)
    ensures m == InsertAll(acc, AllEdgePairs(pages))
    decreases |sent|
  {
    var page := pages[0];
    var acc' := InsertAll(acc, EdgePairs(page.edges));
    if |sent| == 1 {
      assert AllEdgePairs(pages) == EdgePairs(page.edges) + AllEdgePairs([]) == EdgePairs(page.edges);
    } else {
      var tail := pages[1..];
      MembersChainMap(cfg, t, team, page.pageInfo.endCursor, acc', m, sent[1..], tail);
      assert pages == [page] + tail;
      AllEdgePairsPrepend(acc, page, tail);
    }
  }

  /** Conversely: when the token is a valid header, a chain of pages whose
      queries are answered as it says makes the walk finish, given enough
      fuel, with the chain's map and requests. */
  lemma {:induction false} ChainMembersWalk(cfg: Config, t: Transport, team: string, info: PageInfo,
                                           acc: map<nat, TeamMember>, fuel: nat,
                                           m: map<nat, TeamMember>, sent: seq<Request>, pages: seq<Members>)
    requires HeaderOk(cfg)
    requires info.hasNextPage
    requires MembersChain(cfg, t, team, info.endCursor, acc, m, sent, pages)
    requires |sent| <= fuel
    ensures MembersWalk(cfg, t, team, info, acc, fuel) == Some(Run(Ok(m), sent))
    decreases |sent|
  {
    var q := Query(cfg, t, MembersQuery, TeamCursor(team, info.endCursor), AsTeamNode);
    assert q.sent == [sent[0]] && q.result == Ok(Some(pages[0]));
    var page := pages[0];
    var acc' := InsertAll(acc, EdgePairs(page.edges));
    if |sent| == 1 {
      assert MembersWalk(cfg, t, team, page.pageInfo, acc', fuel - 1) == Some(Run(Ok(acc'), []));
      assert [sent[0]] + [] == sent;
    } else {
      ChainMembersWalk(cfg, t, team, page.pageInfo, acc', fuel - 1, m, sent[1..], pages[1..]);
      assert [sent[0]] + sent[1..] == sent;
    }
  }

  /** Inserting one page and then the others is inserting all of them. */
  lemma AllEdgePairsPrepend(acc: map<nat, TeamMember>, page: Members, tail: seq<Members>)
    ensures InsertAll(InsertAll(acc, EdgePairs(page.edges)), AllEdgePairs(tail)) ==
            InsertAll(acc, AllEdgePairs([page] + tail))
  {
    assert ([page] + tail)[1..] == tail;
    InsertAllConcat(acc, EdgePairs(page.edges), AllEdgePairs(tail));
  }
}
