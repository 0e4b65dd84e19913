/** Safety of elections in every run, with the vote handler interrupted anywhere. */
module VoteSafety {
  import opened RaftTypes
  import opened RaftNode
  import opened Quorums
  import opened VoteProtocol

  // ---------- Each step keeps the invariant ----------

  lemma SameRecords(c: Cluster, c': Cluster, n: int)
    requires VotesOk(c) && c'.ballots == c.ballots && c'.campaigns == c.campaigns
    ensures Records(c, c', n)
  {
  }

  lemma OneRpcMoves(c: Cluster, c': Cluster, n: int, k: RpcKey, rpc: Rpc)
    requires k in c.rpcs && c.rpcs[k] != Consumed && (c.rpcs[k] == InHandler ==> k.voter == n)
    requires c'.rpcs == c.rpcs[k := rpc] && RpcOk(k, rpc, c.nodes.Keys, c'.ballots, c'.campaigns)
    ensures MovesRpcs(c, c', n)
  {
  }

  lemma PeerCount(nodes: map<int, Node>, n: int)
    requires Membership(nodes) && n in nodes
    ensures |nodes[n].peers| + 1 == |nodes.Keys|
    ensures forall v :: v in nodes[n].peers ==> v in nodes && v != n
  {
    DistinctCount(nodes[n].peers);
    var others := set w | w in nodes[n].peers;
    assert others == nodes.Keys - {n};
    assert forall v :: v in nodes[n].peers ==> v in others;
  }

  lemma FreshCampaign(c: Cluster, n: int, t: int)
    requires VotesOk(c) && Shape(c) && RpcsOk(c.nodes.Keys, c.rpcs, c.ballots, c.campaigns)
    requires n in c.nodes && t > c.nodes[n].currentTerm
    ensures Campaign(n, t) !in c.campaigns
    ensures forall k :: k in c.rpcs ==> k.candidate != n || k.term != t
  {
  }

  lemma TimeoutKeeps(c: Cluster, n: int)
    requires Inv(c) && Enabled(c, Timeout(n))
    ensures Inv(DoTimeout(c, n))
  {
    var c' := DoTimeout(c, n);
    var t := c.nodes[n].currentTerm + 1;
    PeerCount(c.nodes, n);
    FreshCampaign(c, n, t);
    TimeoutRecords(c, n);
    TimeoutRpcs(c, n);
    TimeoutLocally(c, n);
    TimeoutWins(c, n);
    Keeps(c, c', n);
  }

  lemma TimeoutLocally(c: Cluster, n: int)
    requires Shape(c) && Enabled(c, Timeout(n)) && c.nodes[n].id == n
    requires Remembers(n, c.nodes[n], c.ballots)
    requires |c.nodes[n].peers| + 1 == |c.nodes.Keys|
    ensures LocallyOk(DoTimeout(c, n), n)
  {
  }

  lemma TimeoutWins(c: Cluster, n: int)
    requires Shape(c) && Enabled(c, Timeout(n)) && |c.nodes[n].peers| + 1 == |c.nodes.Keys|
    ensures Wins(c, DoTimeout(c, n), n)
  {
    var c' := DoTimeout(c, n);
    if c.nodes[n].peers == [] {
      SubsetSize({n}, Voters(c.nodes.Keys, c'.ballots, Campaign(n, c.nodes[n].currentTerm + 1)));
    }
  }

  lemma TimeoutRecords(c: Cluster, n: int)
    requires Shape(c) && Enabled(c, Timeout(n))
    requires Remembers(n, c.nodes[n], c.ballots)
    requires OneVotePerTerm(c.ballots) && BallotsCompared(c.ballots, c.campaigns)
    requires Campaign(n, c.nodes[n].currentTerm + 1) !in c.campaigns
    ensures Records(c, DoTimeout(c, n), n)
  {
    OwnBallotRecords(c, DoTimeout(c, n), n, c.nodes[n].currentTerm + 1, LastOf(c.nodes[n].log));
  }

  lemma OwnBallotRecords(c: Cluster, c': Cluster, n: int, t: int, last: LastLog)
    requires n in c.nodes && Campaign(n, t) !in c.campaigns
    requires forall b :: b in c.ballots && b.voter == n ==> b.term < t
    requires OneVotePerTerm(c.ballots) && BallotsCompared(c.ballots, c.campaigns)
    requires c'.ballots == c.ballots[Ballot(n, t, n) := last] && c'.campaigns == c.campaigns[Campaign(n, t) := last]
    ensures Records(c, c', n)
  {
  }

  lemma TimeoutRpcs(c: Cluster, n: int)
    requires Shape(c) && Enabled(c, Timeout(n))
    requires forall k :: k in c.rpcs ==> k.candidate != n || k.term != c.nodes[n].currentTerm + 1
    requires forall v :: v in c.nodes[n].peers ==> v in c.nodes && v != n
    ensures MovesRpcs(c, DoTimeout(c, n), n)
  {
  }

  lemma EvaluateKeeps(c: Cluster, n: int, req: VoteRequest)
    requires Inv(c) && n in c.nodes && KeyOf(n, req) in c.rpcs
    requires CampaignOf(req) in c.campaigns && c.campaigns[CampaignOf(req)] == req.last
    requires || c.phases[n] == Checking(req)
             || (c.phases[n] == Idle && c.rpcs[KeyOf(n, req)].Requested? && req.term == c.nodes[n].currentTerm)
    ensures Inv(Evaluate(c, n, req))
  {
    var c' := Evaluate(c, n, req);
    HandlerAt(c, n);
    RpcAt(c, KeyOf(n, req));
    EvaluateRpcs(c, n, req);
    EvaluatePhase(c, n, req);
    Progress(c, c', n);
  }

  lemma HandlerAt(c: Cluster, n: int)
    requires Inv(c) && n in c.nodes
    ensures PhaseOk(n, c.nodes[n].currentTerm, c.phases[n], c.ballots)
    ensures HandlerOk(n, c.phases[n], c.rpcs, c.campaigns)
    ensures TallyOk(n, c.nodes[n], c.counted[n], c.nodes.Keys, c.rpcs, c.ballots)
    ensures Remembers(n, c.nodes[n], c.ballots)
  {
  }

  lemma MoveOnQuiet(c: Cluster, n: int, phase: Phase, k: RpcKey, rpc: Rpc)
    requires Shape(c) && n in c.nodes && k in c.rpcs && c.rpcs[k] != Consumed &&
        (c.rpcs[k] == InHandler ==> k.voter == n)
    requires RpcOk(k, rpc, c.nodes.Keys, c.ballots, c.campaigns)
    ensures Quiet(c, MoveOn(c, n, phase, k, rpc), n)
  {
    OneRpcMoves(c, MoveOn(c, n, phase, k, rpc), n, k, rpc);
  }

  lemma EvaluateRpcs(c: Cluster, n: int, req: VoteRequest)
    requires Shape(c) && n in c.nodes && KeyOf(n, req) in c.rpcs && c.rpcs[KeyOf(n, req)] != Consumed
    requires RpcOk(KeyOf(n, req), c.rpcs[KeyOf(n, req)], c.nodes.Keys, c.ballots, c.campaigns)
    ensures Quiet(c, Evaluate(c, n, req), n)
  {
    if MayVote(c.nodes[n], req) {
      MoveOnQuiet(c, n, Granting(req, LastOf(c.nodes[n].log)), KeyOf(n, req), InHandler);
    } else {
      MoveOnQuiet(c, n, Idle, KeyOf(n, req), Replied(false));
    }
  }

  lemma EvaluatePhase(c: Cluster, n: int, req: VoteRequest)
    requires Shape(c) && VotesOk(c) && n in c.nodes
    requires PhaseOk(n, c.nodes[n].currentTerm, c.phases[n], c.ballots) && Remembers(n, c.nodes[n], c.ballots)
    requires CampaignOf(req) in c.campaigns && c.campaigns[CampaignOf(req)] == req.last
    requires c.phases[n] == Checking(req) || (c.phases[n] == Idle && req.term == c.nodes[n].currentTerm)
    ensures var c' := Evaluate(c, n, req);
            && PhaseOk(n, c.nodes[n].currentTerm, c'.phases[n], c.ballots)
            && HandlerOk(n, c'.phases[n], c'.rpcs, c'.campaigns)
  {
  }

  lemma TallySurvives(c: Cluster, c': Cluster, n: int)
    requires Touches(c, c', n) && MovesRpcs(c, c', n) && c.ballots.Keys <= c'.ballots.Keys
    requires TallyOk(n, c.nodes[n], c.counted[n], c.nodes.Keys, c.rpcs, c.ballots)
    requires c'.counted[n] == c.counted[n]
    requires c'.nodes[n].role == Candidate ==>
               && c.nodes[n].role == Candidate && c'.nodes[n].currentTerm == c.nodes[n].currentTerm
               && c'.nodes[n].votesReceived == c.nodes[n].votesReceived &&
                    c'.nodes[n].totalVotes == c.nodes[n].totalVotes
    ensures TallyOk(n, c'.nodes[n], c'.counted[n], c'.nodes.Keys, c'.rpcs, c'.ballots)
  {
  }

  /** A step that changes neither a node nor the history. */
  ghost predicate Quiet(c: Cluster, c': Cluster, n: int) {
    && Touches(c, c', n) && MovesRpcs(c, c', n)
    && c'.nodes == c.nodes && c'.counted == c.counted && c'.wins == c.wins
    && c'.ballots == c.ballots && c'.campaigns == c.campaigns && c'.winners == c.winners
  }

  lemma Progress(c: Cluster, c': Cluster, n: int)
    requires Inv(c) && Quiet(c, c', n)
    requires PhaseOk(n, c.nodes[n].currentTerm, c'.phases[n], c.ballots) &&
        HandlerOk(n, c'.phases[n], c'.rpcs, c'.campaigns)
    ensures Inv(c')
  {
    SameRecords(c, c', n);
    HandlerAt(c, n);
    TallySurvives(c, c', n);
    Keeps(c, c', n);
  }

  lemma DeliverKeeps(c: Cluster, k: RpcKey)
    requires Inv(c) && Enabled(c, Deliver(k))
    ensures Inv(DoDeliver(c, k))
  {
    var n := k.voter;
    var c' := DoDeliver(c, k);
    var req := VoteRequest(k.term, k.candidate, c.rpcs[k].last);
    RpcAt(c, k);
    HandlerAt(c, n);
    if req.term == c.nodes[n].currentTerm {
      EvaluateKeeps(c, n, req);
    } else {
      DeliverStarts(c, k);
      DeliverPhase(c, k);
      Progress(c, c', n);
    }
  }

  lemma RpcAt(c: Cluster, k: RpcKey)
    requires Inv(c) && k in c.rpcs
    ensures RpcOk(k, c.rpcs[k], c.nodes.Keys, c.ballots, c.campaigns)
  {
  }

  lemma DeliverRefuses(c: Cluster, k: RpcKey)
    requires Shape(c) && Enabled(c, Deliver(k)) && k.term < c.nodes[k.voter].currentTerm
    requires RpcOk(k, c.rpcs[k], c.nodes.Keys, c.ballots, c.campaigns)
    ensures Quiet(c, DoDeliver(c, k), k.voter)
  {
    OneRpcMoves(c, DoDeliver(c, k), k.voter, k, Replied(false));
  }

  lemma DeliverStarts(c: Cluster, k: RpcKey)
    requires Shape(c) && Enabled(c, Deliver(k)) && k.term != c.nodes[k.voter].currentTerm
    requires RpcOk(k, c.rpcs[k], c.nodes.Keys, c.ballots, c.campaigns)
    ensures Quiet(c, DoDeliver(c, k), k.voter)
  {
    if k.term < c.nodes[k.voter].currentTerm {
      DeliverRefuses(c, k);
    } else {
      MoveOnQuiet(c, k.voter, Adopting(VoteRequest(k.term, k.candidate, c.rpcs[k].last)), k, InHandler);
    }
  }

  lemma DeliverPhase(c: Cluster, k: RpcKey)
    requires Shape(c) && Enabled(c, Deliver(k)) && k.term != c.nodes[k.voter].currentTerm
    requires RpcOk(k, c.rpcs[k], c.nodes.Keys, c.ballots, c.campaigns)
    requires Remembers(k.voter, c.nodes[k.voter], c.ballots)
    ensures var c' := DoDeliver(c, k);
            && PhaseOk(k.voter, c.nodes[k.voter].currentTerm, c'.phases[k.voter], c.ballots)
            && HandlerOk(k.voter, c'.phases[k.voter], c'.rpcs, c'.campaigns)
  {
  }

  lemma AdoptKeeps(c: Cluster, n: int)
    requires Inv(c) && Enabled(c, Adopt(n))
    ensures Inv(DoAdopt(c, n))
  {
    var c' := DoAdopt(c, n);
    HandlerAt(c, n);
    AdoptLocally(c, n);
    SameRecords(c, c', n);
    Keeps(c, c', n);
  }

  /** Lowering the term is harmless: every earlier vote was cast in a term below the adopted one. */
  lemma AdoptLocally(c: Cluster, n: int)
    requires Shape(c) && Enabled(c, Adopt(n))
    requires PhaseOk(n, c.nodes[n].currentTerm, c.phases[n], c.ballots)
    requires HandlerOk(n, c.phases[n], c.rpcs, c.campaigns)
    ensures var c' := DoAdopt(c, n);
            && Touches(c, c', n) && MovesRpcs(c, c', n) && LocallyOk(c', n) && Wins(c, c', n)
            && c'.ballots == c.ballots && c'.campaigns == c.campaigns
  {
  }

  lemma GrantKeeps(c: Cluster, n: int)
    requires Inv(c) && Enabled(c, Grant(n))
    ensures Inv(DoGrant(c, n))
  {
    var c' := DoGrant(c, n);
    HandlerAt(c, n);
    RpcAt(c, KeyOf(n, c.phases[n].req));
    GrantRecords(c, n);
    GrantRemembers(c, n);
    GrantRpcs(c, n);
    TallySurvives(c, c', n);
    Keeps(c, c', n);
  }

  /** The new ballot is consistent with the node's others and with its campaign. */
  lemma GrantRecords(c: Cluster, n: int)
    requires Shape(c) && VotesOk(c) && Enabled(c, Grant(n)) && c.phases[n].req.candidate in c.nodes
    requires VoteStillFree(c.ballots, n, c.phases[n].req) && UpToDate(c.phases[n].req.last, c.phases[n].compared)
    requires HandlerOk(n, c.phases[n], c.rpcs, c.campaigns)
    ensures Records(c, DoGrant(c, n), n)
  {
    var Granting(req, compared) := c.phases[n];
    BallotRecords(c, DoGrant(c, n), n, req, compared);
  }

  lemma BallotRecords(c: Cluster, c': Cluster, n: int, req: VoteRequest, compared: LastLog)
    requires OneVotePerTerm(c.ballots) && BallotsCompared(c.ballots, c.campaigns) && req.candidate in c.nodes
    requires VoteStillFree(c.ballots, n, req) && UpToDate(req.last, compared)
    requires CampaignOf(req) in c.campaigns && c.campaigns[CampaignOf(req)] == req.last
    requires c'.ballots == c.ballots[Ballot(n, req.term, req.candidate) := compared] && c'.campaigns == c.campaigns
    ensures Records(c, c', n)
  {
  }

  lemma GrantRemembers(c: Cluster, n: int)
    requires Shape(c) && Enabled(c, Grant(n)) && PhaseOk(n, c.nodes[n].currentTerm, c.phases[n], c.ballots)
    ensures Remembers(n, DoGrant(c, n).nodes[n], DoGrant(c, n).ballots)
  {
  }

  lemma GrantRpcs(c: Cluster, n: int)
    requires Shape(c) && Enabled(c, Grant(n)) && HandlerOk(n, c.phases[n], c.rpcs, c.campaigns)
    requires RpcOk(KeyOf(n, c.phases[n].req), InHandler, c.nodes.Keys, c.ballots, c.campaigns)
    ensures var c' := DoGrant(c, n);
            && Touches(c, c', n) && MovesRpcs(c, c', n) && Wins(c, c', n)
            && c'.phases[n].Idle? && c'.counted[n] == c.counted[n] &&
                 c'.nodes[n] == CastVote(c.nodes[n], c.phases[n].req.candidate)
  {
  }

  lemma CountKeeps(c: Cluster, k: RpcKey)
    requires Inv(c) && Enabled(c, Count(k))
    ensures Inv(DoCount(c, k))
  {
    var c' := DoCount(c, k);
    var n := k.candidate;
    HandlerAt(c, n);
    RpcAt(c, k);
    CountRpcs(c, k);
    if CountsVote(c.nodes[n], k.term, c.rpcs[k].granted) {
      SameRecords(c, c', n);
      CountTally(c, k);
      CountWins(c, k);
      CountRemembers(c, k);
      Keeps(c, c', n);
    } else {
      Progress(c, c', n);
    }
  }

  lemma CountRpcs(c: Cluster, k: RpcKey)
    requires Shape(c) && Enabled(c, Count(k)) && RpcOk(k, c.rpcs[k], c.nodes.Keys, c.ballots, c.campaigns)
    ensures Touches(c, DoCount(c, k), k.candidate) && MovesRpcs(c, DoCount(c, k), k.candidate)
    ensures DoCount(c, k).ballots == c.ballots && DoCount(c, k).campaigns == c.campaigns
    ensures !CountsVote(c.nodes[k.candidate], k.term, c.rpcs[k].granted) ==> Quiet(c, DoCount(c, k), k.candidate)
    ensures DoCount(c, k).phases == c.phases
  {
    OneRpcMoves(c, DoCount(c, k), k.candidate, k, Consumed);
  }

  /** The counted peer is new, so the counter still counts distinct granters. */
  lemma CountTally(c: Cluster, k: RpcKey)
    requires Shape(c) && Enabled(c, Count(k)) && CountsVote(c.nodes[k.candidate], k.term, c.rpcs[k].granted)
    requires RpcOk(k, c.rpcs[k], c.nodes.Keys, c.ballots, c.campaigns)
    requires TallyOk(k.candidate, c.nodes[k.candidate], c.counted[k.candidate], c.nodes.Keys, c.rpcs, c.ballots)
    ensures var c' := DoCount(c, k);
            var n := k.candidate;
            TallyOk(n, c'.nodes[n], c'.counted[n], c'.nodes.Keys, c'.rpcs, c'.ballots)
  {
    var n := k.candidate;
    var c' := DoCount(c, k);
    assert c'.nodes.Keys == c.nodes.Keys;
    assert k.voter !in c.counted[n];
  }

  /** Reaching the threshold means a quorum of ballots. */
  lemma CountWins(c: Cluster, k: RpcKey)
    requires Shape(c) && Enabled(c, Count(k)) && CountsVote(c.nodes[k.candidate], k.term, c.rpcs[k].granted)
    requires RpcOk(k, c.rpcs[k], c.nodes.Keys, c.ballots, c.campaigns)
    requires TallyOk(k.candidate, c.nodes[k.candidate], c.counted[k.candidate], c.nodes.Keys, c.rpcs, c.ballots)
    ensures Wins(c, DoCount(c, k), k.candidate)
  {
    var n := k.candidate;
    var counted := c.counted[n] + {k.voter, n};
    assert |counted| == c.nodes[n].votesReceived + 1;
    var voters := Voters(c.nodes.Keys, c.ballots, Campaign(n, k.term));
    assert forall v :: v in c.counted[n] ==> v in voters;
    SubsetSize(counted, voters);
  }

  lemma CountRemembers(c: Cluster, k: RpcKey)
    requires Shape(c) && Enabled(c, Count(k)) && CountsVote(c.nodes[k.candidate], k.term, c.rpcs[k].granted)
    requires Remembers(k.candidate, c.nodes[k.candidate], c.ballots)
    ensures Remembers(k.candidate, DoCount(c, k).nodes[k.candidate], c.ballots)
    ensures DoCount(c, k).nodes[k.candidate].currentTerm == c.nodes[k.candidate].currentTerm
  {
  }

  lemma HandleWinKeeps(c: Cluster, n: int)
    requires Inv(c) && Enabled(c, HandleWin(n))
    ensures Inv(DoHandleWin(c, n))
  {
    var c' := DoHandleWin(c, n);
    HandlerAt(c, n);
    WinLocally(c, n);
    SameRecords(c, c', n);
    Keeps(c, c', n);
  }

  lemma WinLocally(c: Cluster, n: int)
    requires Shape(c) && Enabled(c, HandleWin(n))
    requires Remembers(n, c.nodes[n], c.ballots)
    ensures var c' := DoHandleWin(c, n);
            && Touches(c, c', n) && MovesRpcs(c, c', n) && LocallyOk(c', n) && Wins(c, c', n)
            && c'.ballots == c.ballots && c'.campaigns == c.campaigns
  {
  }

  /** Whatever happens outside the election: the term only rises, a higher term
      clears the vote and ends a candidacy, and nothing makes a candidate or a leader. */
  ghost predicate Outside(a: Node, b: Node) {
    && b.id == a.id && b.peers == a.peers
    && b.currentTerm >= a.currentTerm
    && (b.currentTerm == a.currentTerm ==> b.votedFor == a.votedFor)
    && (b.role != Follower ==> b.role == a.role && b.currentTerm == a.currentTerm)
    && b.votesReceived == a.votesReceived && b.totalVotes == a.totalVotes
  }

  lemma OutsideKeeps(c: Cluster, n: int, node: Node)
    requires Inv(c) && n in c.nodes && Outside(c.nodes[n], node)
    ensures Inv(SetNode(c, n, node))
  {
    var c' := SetNode(c, n, node);
    HandlerAt(c, n);
    OutsideLocally(c, n, node);
    SameRecords(c, c', n);
    Keeps(c, c', n);
  }

  lemma OutsideLocally(c: Cluster, n: int, node: Node)
    requires Shape(c) && n in c.nodes && Outside(c.nodes[n], node)
    requires Remembers(n, c.nodes[n], c.ballots)
    requires PhaseOk(n, c.nodes[n].currentTerm, c.phases[n], c.ballots)
    requires HandlerOk(n, c.phases[n], c.rpcs, c.campaigns)
    requires TallyOk(n, c.nodes[n], c.counted[n], c.nodes.Keys, c.rpcs, c.ballots)
    ensures var c' := SetNode(c, n, node);
            && Touches(c, c', n) && MovesRpcs(c, c', n) && LocallyOk(c', n) && Wins(c, c', n)
  {
    assert SetNode(c, n, node).nodes.Keys == c.nodes.Keys;
  }

  lemma CallsAreOutside(decode: EntryDecoder, n: Node, req: AppendRequest, sentTerm: int, term: int)
    requires Wellformed(req)
    ensures Outside(n, Append(decode, n, req).0)
    ensures Outside(n, HeartbeatReply(n, sentTerm, term))
    ensures Outside(n, n.(role := Follower))
  {
  }

  const NO_APPEND := AppendRequest(0, 0, 0, [], 0)

  lemma CheckKeeps(c: Cluster, n: int)
    requires Inv(c) && Enabled(c, Check(n))
    ensures Inv(Evaluate(c, n, c.phases[n].req))
  {
    HandlerAt(c, n);
    EvaluateKeeps(c, n, c.phases[n].req);
  }

  lemma VoterKeeps(decode: EntryDecoder, c: Cluster, s: Step)
    requires Inv(c) && Enabled(c, s) && (s.Adopt? || s.Check? || s.Grant?)
    ensures Inv(Do(decode, c, s))
  {
    match s
    case Adopt(n) => AdoptKeeps(c, n);
    case Check(n) => CheckKeeps(c, n);
    case Grant(n) => GrantKeeps(c, n);
  }

  lemma HeartbeatKeeps(decode: EntryDecoder, c: Cluster, s: Step)
    requires Inv(c) && Enabled(c, s) && s.Heartbeat?
    ensures Inv(Do(decode, c, s))
  {
    OutsideKeeps(c, s.n, c.nodes[s.n].(role := Follower));
  }

  lemma AppendKeeps(decode: EntryDecoder, c: Cluster, s: Step)
    requires Inv(c) && Enabled(c, s) && s.ReceiveAppend?
    ensures Inv(Do(decode, c, s))
  {
    CallsAreOutside(decode, c.nodes[s.n], s.append, 0, 0);
    OutsideKeeps(c, s.n, Append(decode, c.nodes[s.n], s.append).0);
  }

  lemma ReplyKeeps(decode: EntryDecoder, c: Cluster, s: Step)
    requires Inv(c) && Enabled(c, s) && s.ReceiveReply?
    ensures Inv(Do(decode, c, s))
  {
    OutsideKeeps(c, s.n, HeartbeatReply(c.nodes[s.n], s.sentTerm, s.term));
  }

  lemma CallKeeps(decode: EntryDecoder, c: Cluster, s: Step)
    requires Inv(c) && Enabled(c, s) && (s.Heartbeat? || s.ReceiveAppend? || s.ReceiveReply?)
    ensures Inv(Do(decode, c, s))
  {
    if s.Heartbeat? {
      HeartbeatKeeps(decode, c, s);
    } else if s.ReceiveAppend? {
      AppendKeeps(decode, c, s);
    } else {
      ReplyKeeps(decode, c, s);
    }
  }

  lemma CandidateKeeps(decode: EntryDecoder, c: Cluster, s: Step)
    requires Inv(c) && Enabled(c, s) && (s.Timeout? || s.Deliver? || s.Count? || s.HandleWin?)
    ensures Inv(Do(decode, c, s))
  {
    match s
    case Timeout(n) => TimeoutKeeps(c, n);
    case Deliver(k) => DeliverKeeps(c, k);
    case Count(k) => CountKeeps(c, k);
    case HandleWin(n) => HandleWinKeeps(c, n);
  }

  lemma StepKeeps(decode: EntryDecoder, c: Cluster, s: Step)
    requires Inv(c) && Enabled(c, s)
    ensures Inv(Do(decode, c, s))
  {
    if s.Adopt? || s.Check? || s.Grant? {
      VoterKeeps(decode, c, s);
    } else if s.Heartbeat? || s.ReceiveAppend? || s.ReceiveReply? {
      CallKeeps(decode, c, s);
    } else {
      CandidateKeeps(decode, c, s);
    }
  }

  // ---------- Every run ----------

  lemma InitOk(c: Cluster)
    requires Init(c)
    ensures Inv(c)
  {
  }

  lemma {:induction false} RunKeeps(decode: EntryDecoder, c: Cluster, steps: seq<Step>)
    requires Inv(c) && Legal(decode, c, steps)
    ensures Inv(Final(decode, c, steps))
    decreases |steps|
  {
    if steps != [] {
      StepKeeps(decode, c, steps[0]);
      RunKeeps(decode, Do(decode, c, steps[0]), steps[1..]);
    }
  }

  lemma VotesSafe(c: Cluster, a: Ballot, b: Ballot)
    requires Inv(c) && a in c.ballots && b in c.ballots
    ensures a.voter == b.voter && a.term == b.term ==> a.candidate == b.candidate
    ensures a.voter in c.nodes && a.term <= c.nodes[a.voter].currentTerm
  {
  }

  /** Vote once: in every run, whatever falls into the gaps of the vote handler, no
      node grants two candidates one term; and the highest term it voted in never
      exceeds its current term, although that term itself may fall. */
  lemma {:induction false} VoteOnce(decode: EntryDecoder, start: Cluster, steps: seq<Step>, a: Ballot, b: Ballot)
    requires Init(start) && Legal(decode, start, steps)
    ensures var c := Final(decode, start, steps);
            a in c.ballots && b in c.ballots ==>
              && (a.voter == b.voter && a.term == b.term ==> a.candidate == b.candidate)
              && a.voter in c.nodes && a.term <= c.nodes[a.voter].currentTerm
  {
    InitOk(start);
    RunKeeps(decode, start, steps);
    var c := Final(decode, start, steps);
    if a in c.ballots && b in c.ballots {
      VotesSafe(c, a, b);
    }
  }

  /** A candidate's counter is one plus the number of distinct peers whose grant of the
      current term it has counted; grants still under way are not in it. */
  lemma {:induction false} CounterIsExact(decode: EntryDecoder, start: Cluster, steps: seq<Step>, n: int)
    requires Init(start) && Legal(decode, start, steps)
    ensures var c := Final(decode, start, steps);
            n in c.nodes && c.nodes[n].role == Candidate ==>
              && c.nodes[n].votesReceived == 1 + |c.counted[n]| && n !in c.counted[n]
              && (forall v :: v in c.counted[n] ==> Ballot(v, c.nodes[n].currentTerm, n) in c.ballots)
  {
    InitOk(start);
    RunKeeps(decode, start, steps);
    var c := Final(decode, start, steps);
    if n in c.nodes {
      HandlerAt(c, n);
    }
  }

  lemma WinnersAgree(c: Cluster, a: Campaign, b: Campaign)
    requires Inv(c) && a in c.winners && b in c.winners && a.term == b.term
    ensures a.candidate == b.candidate
  {
    var va, vb := Voters(c.nodes.Keys, c.ballots, a), Voters(c.nodes.Keys, c.ballots, b);
    assert |va| >= 1;
    QuorumsMeet(c.nodes.Keys, va, vb);
    var v :| v in va * vb;
    assert Ballot(v, a.term, a.candidate) in c.ballots && Ballot(v, b.term, b.candidate) in c.ballots;
  }

  /** Election safety: in every run, no two distinct nodes reach the vote threshold in one term. */
  lemma {:induction false} ElectionSafety(decode: EntryDecoder, start: Cluster, steps: seq<Step>, a: Campaign,
        b: Campaign)
    requires Init(start) && Legal(decode, start, steps)
    ensures var c := Final(decode, start, steps);
            a in c.winners && b in c.winners && a.term == b.term ==> a.candidate == b.candidate
  {
    InitOk(start);
    RunKeeps(decode, start, steps);
    var c := Final(decode, start, steps);
    if a in c.winners && b in c.winners && a.term == b.term {
      WinnersAgree(c, a, b);
    }
  }

  // ---------- Leaders ----------

  /** Whoever led a term had won it, and whoever is leader leads the term it is in. */
  ghost predicate LeadersWon(c: Cluster) {
    && c.led <= c.winners
    && (forall n :: n in c.nodes && c.nodes[n].role == Leader ==> Campaign(n, c.nodes[n].currentTerm) in c.led)
  }

  lemma SetNodeLeads(c: Cluster, c': Cluster, n: int)
    requires LeadersWon(c) && n in c.nodes && n in c'.nodes && c'.nodes == c.nodes[n := c'.nodes[n]]
    requires c'.led == c.led && c.winners <= c'.winners
    requires c'.nodes[n].role == Leader ==>
               c.nodes[n].role == Leader && c'.nodes[n].currentTerm == c.nodes[n].currentTerm
    ensures LeadersWon(c')
  {
  }

  lemma CandidateStepLeads(c: Cluster, n: int)
    requires Shape(c) && LeadersWon(c) && Enabled(c, Timeout(n))
    ensures LeadersWon(DoTimeout(c, n))
  {
  }

  lemma VoterStepLeads(decode: EntryDecoder, c: Cluster, s: Step)
    requires Shape(c) && LeadersWon(c) && Enabled(c, s) && (s.Adopt? || s.Check? || s.Grant?)
    ensures LeadersWon(Do(decode, c, s))
  {
    SetNodeLeads(c, Do(decode, c, s), s.n);
  }

  lemma DeliverStepLeads(c: Cluster, k: RpcKey)
    requires Shape(c) && LeadersWon(c) && Enabled(c, Deliver(k))
    ensures LeadersWon(DoDeliver(c, k))
  {
  }

  lemma CountStepLeads(c: Cluster, k: RpcKey)
    requires Shape(c) && LeadersWon(c) && Enabled(c, Count(k))
    ensures LeadersWon(DoCount(c, k))
  {
  }

  lemma OutsideStepLeads(decode: EntryDecoder, c: Cluster, s: Step)
    requires Shape(c) && LeadersWon(c) && Enabled(c, s) && (s.Heartbeat? || s.ReceiveAppend? || s.ReceiveReply?)
    ensures LeadersWon(Do(decode, c, s))
  {
    if s.ReceiveAppend? {
      CallsAreOutside(decode, c.nodes[s.n], s.append, 0, 0);
    }
    SetNodeLeads(c, Do(decode, c, s), s.n);
  }

  lemma OtherStepLeads(decode: EntryDecoder, c: Cluster, s: Step)
    requires Shape(c) && LeadersWon(c) && Enabled(c, s) && !s.HandleWin?
    ensures LeadersWon(Do(decode, c, s))
  {
    match s
    case Timeout(n) => CandidateStepLeads(c, n);
    case Deliver(k) => DeliverStepLeads(c, k);
    case Count(k) => CountStepLeads(c, k);
    case Heartbeat(_) => OutsideStepLeads(decode, c, s);
    case ReceiveAppend(_, _) => OutsideStepLeads(decode, c, s);
    case ReceiveReply(_, _, _) => OutsideStepLeads(decode, c, s);
    case _ => VoterStepLeads(decode, c, s);
  }

  /** A candidate's counter is at the threshold exactly when its current campaign has won. */
  ghost predicate WonAt(n: int, node: Node, winners: set<Campaign>) {
    node.role == Candidate ==>
      (node.votesReceived >= Threshold(node.totalVotes) <==> Campaign(n, node.currentTerm) in winners)
  }

  ghost predicate WinsKnown(c: Cluster) {
    forall n {:trigger c.nodes[n]} :: n in c.nodes ==> WonAt(n, c.nodes[n], c.winners)
  }

  lemma KeepsKnown(c: Cluster, c': Cluster, n: int)
    requires WinsKnown(c) && n in c.nodes && n in c'.nodes && c'.nodes == c.nodes[n := c'.nodes[n]]
    requires c.winners <= c'.winners && forall g :: g in c'.winners && g.candidate != n ==> g in c.winners
    requires WonAt(n, c'.nodes[n], c'.winners)
    ensures WinsKnown(c')
  {
  }

  lemma WinnersCampaigned(c: Cluster, g: Campaign)
    requires Inv(c) && g in c.winners
    ensures g in c.campaigns
  {
  }

  lemma TimeoutKnown(c: Cluster, n: int)
    requires Inv(c) && WinsKnown(c) && Enabled(c, Timeout(n))
    ensures WinsKnown(DoTimeout(c, n))
  {
    var g := Campaign(n, c.nodes[n].currentTerm + 1);
    FreshCampaign(c, n, g.term);
    if g in c.winners {
      WinnersCampaigned(c, g);
    }
    TimeoutKnowsSelf(c, n);
    KeepsKnown(c, DoTimeout(c, n), n);
  }

  lemma TimeoutKnowsSelf(c: Cluster, n: int)
    requires Shape(c) && Enabled(c, Timeout(n)) && Campaign(n, c.nodes[n].currentTerm + 1) !in c.winners
    ensures WonAt(n, DoTimeout(c, n).nodes[n], DoTimeout(c, n).winners)
  {
  }

  lemma CountKnown(c: Cluster, k: RpcKey)
    requires Shape(c) && WinsKnown(c) && Enabled(c, Count(k)) && k.candidate in c.nodes
    ensures WinsKnown(DoCount(c, k))
  {
    assert WonAt(k.candidate, c.nodes[k.candidate], c.winners);
    KeepsKnown(c, DoCount(c, k), k.candidate);
  }

  lemma VoterKnown(decode: EntryDecoder, c: Cluster, s: Step)
    requires Shape(c) && WinsKnown(c) && Enabled(c, s) && (s.Adopt? || s.Check? || s.Grant? || s.HandleWin?)
    ensures WinsKnown(Do(decode, c, s))
  {
    assert WonAt(s.n, c.nodes[s.n], c.winners);
    KeepsKnown(c, Do(decode, c, s), s.n);
  }

  lemma DeliverKnown(c: Cluster, k: RpcKey)
    requires Shape(c) && WinsKnown(c) && Enabled(c, Deliver(k))
    ensures WinsKnown(DoDeliver(c, k))
  {
  }

  lemma OutsideKnown(decode: EntryDecoder, c: Cluster, s: Step)
    requires Shape(c) && WinsKnown(c) && Enabled(c, s) && (s.Heartbeat? || s.ReceiveAppend? || s.ReceiveReply?)
    ensures WinsKnown(Do(decode, c, s))
  {
    assert WonAt(s.n, c.nodes[s.n], c.winners);
    if s.ReceiveAppend? {
      CallsAreOutside(decode, c.nodes[s.n], s.append, 0, 0);
    }
    KeepsKnown(c, Do(decode, c, s), s.n);
  }

  lemma StepKnown(decode: EntryDecoder, c: Cluster, s: Step)
    requires Inv(c) && WinsKnown(c) && Enabled(c, s)
    ensures WinsKnown(Do(decode, c, s))
  {
    match s
    case Timeout(n) => TimeoutKnown(c, n);
    case Deliver(k) => DeliverKnown(c, k);
    case Count(k) => CountKnown(c, k);
    case Heartbeat(_) => OutsideKnown(decode, c, s);
    case ReceiveAppend(_, _) => OutsideKnown(decode, c, s);
    case ReceiveReply(_, _, _) => OutsideKnown(decode, c, s);
    case _ => VoterKnown(decode, c, s);
  }

  /** The step makes a leader exactly if its campaign had won. */
  lemma WinStepLeadsIff(c: Cluster, n: int)
    requires Shape(c) && WinsKnown(c) && LeadersWon(c) && Enabled(c, HandleWin(n))
    ensures DoHandleWin(c, n).led <= DoHandleWin(c, n).winners <==> GuardedStep(c, HandleWin(n))
    ensures GuardedStep(c, HandleWin(n)) ==> LeadersWon(DoHandleWin(c, n))
  {
  }

  /** At every point of the run, whoever led a term had won it. */
  ghost predicate Elected(decode: EntryDecoder, c: Cluster, steps: seq<Step>)
    requires Legal(decode, c, steps)
    decreases |steps|
  {
    c.led <= c.winners && (steps == [] || Elected(decode, Do(decode, c, steps[0]), steps[1..]))
  }

  /** A step keeps every leader a winner exactly if it is guarded. */
  lemma GuardedStepLeads(decode: EntryDecoder, c: Cluster, s: Step)
    requires Shape(c) && WinsKnown(c) && LeadersWon(c) && Enabled(c, s)
    ensures Do(decode, c, s).led <= Do(decode, c, s).winners <==> GuardedStep(c, s)
    ensures GuardedStep(c, s) ==> LeadersWon(Do(decode, c, s))
  {
    if s.HandleWin? {
      WinStepLeadsIff(c, s.n);
    } else {
      OtherStepLeads(decode, c, s);
    }
  }

  lemma {:induction false} ElectedIff(decode: EntryDecoder, c: Cluster, steps: seq<Step>)
    requires Inv(c) && WinsKnown(c) && LeadersWon(c) && Legal(decode, c, steps)
    ensures Elected(decode, c, steps) <==> Guarded(decode, c, steps)
    ensures Guarded(decode, c, steps) ==> LeadersWon(Final(decode, c, steps))
    decreases |steps|
  {
    if steps != [] {
      var s := steps[0];
      StepKeeps(decode, c, s);
      StepKnown(decode, c, s);
      GuardedStepLeads(decode, c, s);
      if GuardedStep(c, s) {
        ElectedIff(decode, Do(decode, c, s), steps[1..]);
      } else {
        NotElectedNow(decode, Do(decode, c, s), steps[1..]);
      }
    }
  }

  lemma {:induction false} NotElectedNow(decode: EntryDecoder, c: Cluster, steps: seq<Step>)
    requires Legal(decode, c, steps) && !(c.led <= c.winners)
    ensures !Elected(decode, c, steps)
  {
  }

  lemma InitKnown(c: Cluster)
    requires Init(c)
    ensures WinsKnown(c) && LeadersWon(c)
  {
  }

  /** When the leaders of a run were elected: at every point whoever led a term had
      reached the vote threshold in it, if and only if each BecomeLeaderEvent that
      found its node a candidate found it with the votes. */
  lemma {:induction false} LeadersElectedIff(decode: EntryDecoder, start: Cluster, steps: seq<Step>)
    requires Init(start) && Legal(decode, start, steps)
    ensures Elected(decode, start, steps) <==> Guarded(decode, start, steps)
  {
    InitOk(start);
    InitKnown(start);
    ElectedIff(decode, start, steps);
  }

  /** Leader uniqueness (Figure 3 of the Raft paper): in every such run at most one
      node ever leads a term, and a node in the leader role is that node. */
  lemma {:induction false} LeaderUnique(decode: EntryDecoder, start: Cluster, steps: seq<Step>, a: Campaign,
        b: Campaign)
    requires Init(start) && Legal(decode, start, steps)
    ensures var c := Final(decode, start, steps);
            Guarded(decode, start, steps) ==>
              && (a in c.led && b in c.led && a.term == b.term ==> a.candidate == b.candidate)
              && (forall n :: n in c.nodes && c.nodes[n].role == Leader ==>
                   Campaign(n, c.nodes[n].currentTerm) in c.led)
  {
    if Guarded(decode, start, steps) {
      InitOk(start);
      InitKnown(start);
      ElectedIff(decode, start, steps);
      ElectionSafety(decode, start, steps, a, b);
    }
  }

  lemma TimelyStepGuarded(c: Cluster, s: Step)
    requires Inv(c) && WinsKnown(c) && Enabled(c, s) && TimelyStep(c, s)
    ensures GuardedStep(c, s)
  {
    if s.HandleWin? && c.nodes[s.n].role == Candidate {
      assert WonAt(s.n, c.nodes[s.n], c.winners);
      assert c.wins[s.n][0] in c.wins[s.n];
    }
  }

  lemma {:induction false} TimelyRunGuarded(decode: EntryDecoder, c: Cluster, steps: seq<Step>)
    requires Inv(c) && WinsKnown(c) && Legal(decode, c, steps) && Timely(decode, c, steps)
    ensures Guarded(decode, c, steps)
    decreases |steps|
  {
    if steps != [] {
      TimelyStepGuarded(c, steps[0]);
      StepKeeps(decode, c, steps[0]);
      StepKnown(decode, c, steps[0]);
      TimelyRunGuarded(decode, Do(decode, c, steps[0]), steps[1..]);
    }
  }

  /** Handling every event in the term it was queued in is enough: no node's term
      changes between winning and hearing of it. */
  lemma {:induction false} TimelyIsEnough(decode: EntryDecoder, start: Cluster, steps: seq<Step>)
    requires Init(start) && Legal(decode, start, steps) && Timely(decode, start, steps)
    ensures Elected(decode, start, steps)
  {
    InitOk(start);
    InitKnown(start);
    TimelyRunGuarded(decode, start, steps);
    ElectedIff(decode, start, steps);
  }

  // ---------- The winner's log ----------

  /** A majority voted for the campaign, and its last entry is at least as up to date as each voter's. */
  ghost predicate WonUpToDate(c: Cluster, g: Campaign) {
    var voters := Voters(c.nodes.Keys, c.ballots, g);
    && |voters| >= VoteThreshold(|c.nodes.Keys|) && g in c.campaigns
    && (forall v :: v in voters ==> UpToDate(c.campaigns[g], c.ballots[Ballot(v, g.term, g.candidate)]))
  }

  /** Section 5.4.1: a node reaching the threshold asked with a last entry at least as
      up to date as that of every voter in a majority, at the moment the voter
      compared the two. */
  lemma {:induction false} WinnerIsUpToDate(decode: EntryDecoder, start: Cluster, steps: seq<Step>, g: Campaign)
    requires Init(start) && Legal(decode, start, steps)
    ensures var c := Final(decode, start, steps);
            g in c.winners ==> WonUpToDate(c, g)
  {
    InitOk(start);
    RunKeeps(decode, start, steps);
    if g in Final(decode, start, steps).winners {
      WinnersCampaigned(Final(decode, start, steps), g);
    }
  }

  /** So at least one member of every replication acknowledgement set compared its
      log with the winner's, in a cluster of any size. */
  lemma {:induction false} AckSetMeetsWinner(decode: EntryDecoder, start: Cluster, steps: seq<Step>, g: Campaign,
        acks: set<int>)
    requires Init(start) && Legal(decode, start, steps)
    requires start.nodes.Keys != {} && acks <= start.nodes.Keys && |acks| >= AckThreshold(|start.nodes.Keys| - 1)
    ensures var c := Final(decode, start, steps);
            g in c.winners ==>
              exists v :: v in acks && Ballot(v, g.term, g.candidate) in c.ballots && g in c.campaigns
                && UpToDate(c.campaigns[g], c.ballots[Ballot(v, g.term, g.candidate)])
  {
    WinnerIsUpToDate(decode, start, steps, g);
    var c := Final(decode, start, steps);
    if g in c.winners {
      QuorumCompared(c, g, acks);
    }
  }

  lemma QuorumCompared(c: Cluster, g: Campaign, acks: set<int>)
    requires WonUpToDate(c, g) && c.nodes.Keys != {} && acks <= c.nodes.Keys &&
        |acks| >= AckThreshold(|c.nodes.Keys| - 1)
    ensures exists v :: v in acks && Ballot(v, g.term, g.candidate) in c.ballots && g in c.campaigns
              && UpToDate(c.campaigns[g], c.ballots[Ballot(v, g.term, g.candidate)])
  {
    var voters := Voters(c.nodes.Keys, c.ballots, g);
    QuorumsMeet(c.nodes.Keys, voters, acks);
    var v :| v in voters * acks;
    assert Ballot(v, g.term, g.candidate) in c.ballots;
  }
}
