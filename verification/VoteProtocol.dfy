/** Elections over a fixed set of nodes.  The vote handler drops and retakes its
    lock, so each of its locked sections is a step of its own; AppendEntries and
    heartbeat replies run on other goroutines and may fall between any two of
    them.  The events of the run loop wait while the handler is under way.

    A vote RPC is sent to each peer once per campaign, so it is named by candidate,
    term and voter and carries its own progress.  A lost message or a reply that
    timed out is a step never taken.  `ballots`, `campaigns`, `winners`, `led`,
    `counted` and the terms stamped on queued BecomeLeaderEvents are history: no
    step of the code reads them. */
module VoteProtocol {
  import opened RaftTypes
  import opened RaftNode
  import opened Quorums

  datatype Phase =
    | Idle
    | Adopting(req: VoteRequest)                     // before the lock that adopts the higher term
    | Checking(req: VoteRequest)                     // before the lock that reads votedFor and the log
    | Granting(req: VoteRequest, compared: LastLog)  // before the lock that records the vote

  datatype RpcKey = RpcKey(candidate: int, term: int, voter: int)

  datatype Rpc = Requested(last: LastLog) | InHandler | Replied(granted: bool) | Consumed

  datatype Ballot = Ballot(voter: int, term: int, candidate: int)

  datatype Campaign = Campaign(candidate: int, term: int)

  datatype Cluster = Cluster(
    nodes: map<int, Node>,
    phases: map<int, Phase>,            // where each node's vote handler stands
    wins: map<int, seq<int>>,           // queued BecomeLeaderEvents, stamped with the term they were queued in
    rpcs: map<RpcKey, Rpc>,
    counted: map<int, set<int>>,        // the peers whose votes the current campaign counted
    ballots: map<Ballot, LastLog>,      // the voter's last entry when it compared logs
    campaigns: map<Campaign, LastLog>,  // the candidate's last entry when it asked
    winners: set<Campaign>,             // campaigns that reached the threshold
    led: set<Campaign>)                 // who acted as leader, and of which term

  datatype Step =
    | Timeout(n: int)
    | Deliver(k: RpcKey)
    | Adopt(n: int)
    | Check(n: int)
    | Grant(n: int)
    | Count(k: RpcKey)
    | HandleWin(n: int)
    | Heartbeat(n: int)
    | ReceiveAppend(n: int, append: AppendRequest)
    | ReceiveReply(n: int, sentTerm: int, term: int)

  /** Every node has its bookkeeping. */
  ghost predicate Shape(c: Cluster) {
    c.phases.Keys == c.nodes.Keys && c.wins.Keys == c.nodes.Keys && c.counted.Keys == c.nodes.Keys
  }

  /** The run loop of n is between two events. */
  ghost predicate Free(c: Cluster, n: int)
    requires Shape(c)
  {
    n in c.nodes && c.phases[n].Idle?
  }

  ghost predicate Enabled(c: Cluster, s: Step)
    requires Shape(c)
  {
    match s
    case Timeout(n) => Free(c, n) && c.nodes[n].role != Leader
    case Deliver(k) => k in c.rpcs && c.rpcs[k].Requested? && Free(c, k.voter)
    case Adopt(n) => n in c.nodes && c.phases[n].Adopting?
    case Check(n) => n in c.nodes && c.phases[n].Checking?
    case Grant(n) => n in c.nodes && c.phases[n].Granting?
    case Count(k) => k in c.rpcs && c.rpcs[k].Replied? && Free(c, k.candidate)
    case HandleWin(n) => Free(c, n) && c.wins[n] != []
    case Heartbeat(n) => Free(c, n)
    case ReceiveAppend(n, append) => n in c.nodes && Wellformed(append)
    case ReceiveReply(n, _, _) => n in c.nodes
  }

  function KeyOf(n: int, req: VoteRequest): RpcKey { RpcKey(req.candidate, req.term, n) }

  function CampaignOf(req: VoteRequest): Campaign { Campaign(req.candidate, req.term) }

  function Requests(n: int, peers: seq<int>, term: int, last: LastLog): map<RpcKey, Rpc> {
    map v | v in peers :: RpcKey(n, term, v) := Requested(last)
  }

  /** Only node n's own records change, and not who it is. */
  ghost predicate Touches(c: Cluster, c': Cluster, n: int) {
    && Shape(c) && Shape(c') && n in c.nodes && n in c'.nodes
    && c'.nodes == c.nodes[n := c'.nodes[n]]
    && c'.phases == c.phases[n := c'.phases[n]]
    && c'.counted == c.counted[n := c'.counted[n]]
    && c'.wins == c.wins[n := c'.wins[n]]
    && c'.nodes[n].id == c.nodes[n].id && c'.nodes[n].peers == c.nodes[n].peers
  }

  ghost function DoTimeout(c: Cluster, n: int): (c': Cluster)
    requires Shape(c) && Enabled(c, Timeout(n))
    ensures Touches(c, c', n)
  {
    var node := BeginElection(c.nodes[n]);
    var g := Campaign(n, node.currentTerm);
    var last := LastOf(node.log);
    var c1 := c.(nodes := c.nodes[n := node],
                 counted := c.counted[n := {}],
                 rpcs := c.rpcs + Requests(n, node.peers, g.term, last),
                 ballots := c.ballots[Ballot(n, g.term, n) := last],
                 campaigns := c.campaigns[g := last]);
    if node.peers == [] then c1.(wins := c.wins[n := c.wins[n] + [g.term]], winners := c.winners + {g}) else c1
  }

  /** The vote handler of n moves on with its RPC; nothing else changes. */
  ghost function MoveOn(c: Cluster, n: int, phase: Phase, k: RpcKey, rpc: Rpc): (c': Cluster)
    requires Shape(c) && n in c.nodes
    ensures Touches(c, c', n)
  {
    c.(phases := c.phases[n := phase], rpcs := c.rpcs[k := rpc])
  }

  /** The section that reads votedFor and the log: on to the grant, or a refusal. */
  ghost function Evaluate(c: Cluster, n: int, req: VoteRequest): (c': Cluster)
    requires Shape(c) && n in c.nodes
    ensures Touches(c, c', n)
  {
    if MayVote(c.nodes[n], req) then MoveOn(c, n, Granting(req, LastOf(c.nodes[n].log)), KeyOf(n, req), InHandler)
    else MoveOn(c, n, Idle, KeyOf(n, req), Replied(false))
  }

  ghost function DoDeliver(c: Cluster, k: RpcKey): (c': Cluster)
    requires Shape(c) && Enabled(c, Deliver(k))
    ensures Touches(c, c', k.voter)
  {
    var req := VoteRequest(k.term, k.candidate, c.rpcs[k].last);
    var term := c.nodes[k.voter].currentTerm;
    if req.term < term then c.(rpcs := c.rpcs[k := Replied(false)])
    else if req.term > term then MoveOn(c, k.voter, Adopting(req), k, InHandler)
    else Evaluate(c, k.voter, req)
  }

  ghost function DoAdopt(c: Cluster, n: int): (c': Cluster)
    requires Shape(c) && Enabled(c, Adopt(n))
    ensures Touches(c, c', n)
  {
    var req := c.phases[n].req;
    c.(nodes := c.nodes[n := AdoptTerm(c.nodes[n], req.term)], phases := c.phases[n := Checking(req)])
  }

  ghost function DoGrant(c: Cluster, n: int): (c': Cluster)
    requires Shape(c) && Enabled(c, Grant(n))
    ensures Touches(c, c', n)
  {
    var Granting(req, compared) := c.phases[n];
    c.(nodes := c.nodes[n := CastVote(c.nodes[n], req.candidate)],
       phases := c.phases[n := Idle],
       rpcs := c.rpcs[KeyOf(n, req) := Replied(true)],
       ballots := c.ballots[Ballot(n, req.term, req.candidate) := compared])
  }

  ghost function DoCount(c: Cluster, k: RpcKey): (c': Cluster)
    requires Shape(c) && Enabled(c, Count(k))
    ensures Touches(c, c', k.candidate)
  {
    var n := k.candidate;
    var c1 := c.(rpcs := c.rpcs[k := Consumed]);
    if !CountsVote(c.nodes[n], k.term, c.rpcs[k].granted) then c1
    else
      var node := CountVote(c.nodes[n]);
      var c2 := c1.(nodes := c.nodes[n := node], counted := c.counted[n := c.counted[n] + {k.voter}]);
      if node.votesReceived >= Threshold(node.totalVotes) then
        c2.(wins := c.wins[n := c.wins[n] + [k.term]], winners := c.winners + {Campaign(n, k.term)})
      else c2
  }

  ghost function DoHandleWin(c: Cluster, n: int): (c': Cluster)
    requires Shape(c) && Enabled(c, HandleWin(n))
    ensures Touches(c, c', n)
  {
    var node := c.nodes[n];
    c.(nodes := c.nodes[n := BecomeLeader(node)],
       wins := c.wins[n := c.wins[n][1..]],
       led := if node.role == Candidate then c.led + {Campaign(n, node.currentTerm)} else c.led)
  }

  ghost function SetNode(c: Cluster, n: int, node: Node): (c': Cluster)
    requires Shape(c) && n in c.nodes
    ensures Shape(c') && c'.nodes.Keys == c.nodes.Keys
  {
    c.(nodes := c.nodes[n := node])
  }

  ghost function Do(decode: EntryDecoder, c: Cluster, s: Step): (c': Cluster)
    requires Shape(c) && Enabled(c, s)
    ensures Shape(c') && c'.nodes.Keys == c.nodes.Keys
  {
    match s
    case Timeout(n) => DoTimeout(c, n)
    case Deliver(k) => DoDeliver(c, k)
    case Adopt(n) => DoAdopt(c, n)
    case Check(n) => Evaluate(c, n, c.phases[n].req)
    case Grant(n) => DoGrant(c, n)
    case Count(k) => DoCount(c, k)
    case HandleWin(n) => DoHandleWin(c, n)
    case Heartbeat(n) => SetNode(c, n, c.nodes[n].(role := Follower))
    case ReceiveAppend(n, append) => SetNode(c, n, Append(decode, c.nodes[n], append).0)
    case ReceiveReply(n, sentTerm, term) => SetNode(c, n, HeartbeatReply(c.nodes[n], sentTerm, term))
  }

  // ---------- Runs ----------

  ghost predicate Distinct(s: seq<int>) {
    forall i, j :: 0 <= i < j < |s| ==> s[i] != s[j]
  }

  /** Static membership: every node's peer list is the rest of the cluster, each once. */
  ghost predicate Membership(nodes: map<int, Node>) {
    forall n :: n in nodes ==>
      && n != NOBODY
      && nodes[n].id == n
      && Distinct(nodes[n].peers)
      && (set v | v in nodes[n].peers) == nodes.Keys - {n}
  }

  ghost predicate Init(c: Cluster) {
    && Shape(c)
    && Membership(c.nodes)
    && (forall n :: n in c.nodes ==> c.nodes[n] == Fresh(n, c.nodes[n].peers, c.nodes[n].isMaster))
    && (forall n :: n in c.nodes ==> c.phases[n] == Idle && c.wins[n] == [] && c.counted[n] == {})
    && c.rpcs == map[] && c.ballots == map[] && c.campaigns == map[] && c.winners == {} && c.led == {}
  }

  ghost predicate Legal(decode: EntryDecoder, c: Cluster, steps: seq<Step>)
    decreases |steps|
  {
    Shape(c) && (steps == [] || (Enabled(c, steps[0]) && Legal(decode, Do(decode, c, steps[0]), steps[1..])))
  }

  ghost function Final(decode: EntryDecoder, c: Cluster, steps: seq<Step>): (c': Cluster)
    requires Legal(decode, c, steps)
    ensures Shape(c') && c'.nodes.Keys == c.nodes.Keys
    decreases |steps|
  {
    if steps == [] then c else Final(decode, Do(decode, c, steps[0]), steps[1..])
  }

  /** The step does not make a leader out of an event queued in another term. */
  ghost predicate TimelyStep(c: Cluster, s: Step)
    requires Shape(c) && Enabled(c, s)
  {
    s.HandleWin? && c.nodes[s.n].role == Candidate ==> c.wins[s.n][0] == c.nodes[s.n].currentTerm
  }

  ghost predicate Timely(decode: EntryDecoder, c: Cluster, steps: seq<Step>)
    requires Legal(decode, c, steps)
    decreases |steps|
  {
    steps == [] || (TimelyStep(c, steps[0]) && Timely(decode, Do(decode, c, steps[0]), steps[1..]))
  }

  /** The check handleBecomeLeader does not make: a candidate that hears it won has the votes. */
  ghost predicate GuardedStep(c: Cluster, s: Step)
    requires Shape(c) && Enabled(c, s)
  {
    s.HandleWin? && c.nodes[s.n].role == Candidate ==> c.nodes[s.n].votesReceived >= Threshold(c.nodes[s.n].totalVotes)
  }

  ghost predicate Guarded(decode: EntryDecoder, c: Cluster, steps: seq<Step>)
    requires Legal(decode, c, steps)
    decreases |steps|
  {
    steps == [] || (GuardedStep(c, steps[0]) && Guarded(decode, Do(decode, c, steps[0]), steps[1..]))
  }

  // ---------- The invariant ----------

  /** The highest term a node voted in never exceeds its current term, and a vote
      cast in the current term is the one votedFor remembers. */
  ghost predicate Remembers(n: int, node: Node, ballots: map<Ballot, LastLog>) {
    forall b :: b in ballots && b.voter == n ==>
      b.term <= node.currentTerm && (b.term == node.currentTerm ==> node.votedFor == b.candidate)
  }

  ghost predicate BallotsBounded(nodes: map<int, Node>, ballots: map<Ballot, LastLog>) {
    && (forall b :: b in ballots ==> b.voter in nodes && b.candidate in nodes)
    && (forall n {:trigger nodes[n]} :: n in nodes ==> Remembers(n, nodes[n], ballots))
  }

  ghost predicate OneVotePerTerm(ballots: map<Ballot, LastLog>) {
    forall a, b :: a in ballots && b in ballots && a.voter == b.voter && a.term == b.term ==> a.candidate == b.candidate
  }

  ghost predicate CampaignsOk(nodes: map<int, Node>, ballots: map<Ballot, LastLog>, campaigns: map<Campaign, LastLog>) {
    forall g :: g in campaigns ==> g.candidate in nodes && Ballot(g.candidate, g.term, g.candidate) in ballots
  }

  ghost predicate BallotsCompared(ballots: map<Ballot, LastLog>, campaigns: map<Campaign, LastLog>) {
    forall b :: b in ballots ==>
      Campaign(b.candidate, b.term) in campaigns && UpToDate(campaigns[Campaign(b.candidate, b.term)], ballots[b])
  }

  ghost predicate VotedOnlyBefore(ballots: map<Ballot, LastLog>, n: int, term: int) {
    forall b :: b in ballots && b.voter == n ==> b.term < term
  }

  ghost predicate VoteStillFree(ballots: map<Ballot, LastLog>, n: int, req: VoteRequest) {
    forall b :: b in ballots && b.voter == n ==>
      b.term < req.term || (b.term == req.term && b.candidate == req.candidate)
  }

  ghost predicate PhaseOk(n: int, term: int, phase: Phase, ballots: map<Ballot, LastLog>) {
    match phase
    case Idle => true
    case Adopting(req) => VotedOnlyBefore(ballots, n, req.term)
    case Checking(req) => VotedOnlyBefore(ballots, n, req.term) && req.term <= term
    case Granting(req, compared) => VoteStillFree(ballots, n, req) && req.term <= term && UpToDate(req.last, compared)
  }

  ghost predicate PhasesOk(nodes: map<int, Node>, phases: map<int, Phase>, ballots: map<Ballot, LastLog>)
    requires phases.Keys == nodes.Keys
  {
    forall n {:trigger phases[n]} :: n in nodes ==> PhaseOk(n, nodes[n].currentTerm, phases[n], ballots)
  }

  /** A vote handler under way works on an RPC that no one else touches. */
  ghost predicate HandlerOk(n: int, phase: Phase, rpcs: map<RpcKey, Rpc>, campaigns: map<Campaign, LastLog>) {
    !phase.Idle? ==>
      && KeyOf(n, phase.req) in rpcs && rpcs[KeyOf(n, phase.req)] == InHandler
      && CampaignOf(phase.req) in campaigns && campaigns[CampaignOf(phase.req)] == phase.req.last
  }

  ghost predicate HandlersOk(phases: map<int, Phase>, rpcs: map<RpcKey, Rpc>, campaigns: map<Campaign, LastLog>) {
    forall n {:trigger phases[n]} :: n in phases ==> HandlerOk(n, phases[n], rpcs, campaigns)
  }

  ghost predicate RpcOk(k: RpcKey, rpc: Rpc, members: set<int>, ballots: map<Ballot, LastLog>,
        campaigns: map<Campaign, LastLog>) {
    && k.candidate in members && k.voter in members && k.voter != k.candidate
    && Campaign(k.candidate, k.term) in campaigns
    && (rpc.Requested? ==> rpc.last == campaigns[Campaign(k.candidate, k.term)])
    && (rpc == Replied(true) ==> Ballot(k.voter, k.term, k.candidate) in ballots)
  }

  ghost predicate RpcsOk(members: set<int>, rpcs: map<RpcKey, Rpc>, ballots: map<Ballot, LastLog>,
        campaigns: map<Campaign, LastLog>) {
    forall k :: k in rpcs ==> RpcOk(k, rpcs[k], members, ballots, campaigns)
  }

  /** A candidate's counter is one plus the number of distinct peers whose grant this term it has counted. */
  ghost predicate TallyOk(n: int, node: Node, counted: set<int>, members: set<int>, rpcs: map<RpcKey, Rpc>,
        ballots: map<Ballot, LastLog>) {
    node.role == Candidate ==>
      && Ballot(n, node.currentTerm, n) in ballots
      && n !in counted
      && node.votesReceived == 1 + |counted|
      && node.totalVotes == |members|
      && forall v :: v in counted ==>
           && v in members
           && RpcKey(n, node.currentTerm, v) in rpcs
           && rpcs[RpcKey(n, node.currentTerm, v)] == Consumed
           && Ballot(v, node.currentTerm, n) in ballots
  }

  ghost predicate TalliesOk(nodes: map<int, Node>, counted: map<int, set<int>>, rpcs: map<RpcKey, Rpc>,
        ballots: map<Ballot, LastLog>)
    requires counted.Keys == nodes.Keys
  {
    forall n {:trigger counted[n]} :: n in nodes ==> TallyOk(n, nodes[n], counted[n], nodes.Keys, rpcs, ballots)
  }

  ghost function Voters(members: set<int>, ballots: map<Ballot, LastLog>, g: Campaign): set<int> {
    set v | v in members && Ballot(v, g.term, g.candidate) in ballots
  }

  ghost predicate WinnersOk(members: set<int>, ballots: map<Ballot, LastLog>, winners: set<Campaign>) {
    forall g :: g in winners ==> |Voters(members, ballots, g)| >= VoteThreshold(|members|)
  }

  ghost predicate WinsOk(wins: map<int, seq<int>>, winners: set<Campaign>) {
    forall n, t :: n in wins && t in wins[n] ==> Campaign(n, t) in winners
  }

  /** Safety of voting. */
  ghost predicate VotesOk(c: Cluster) {
    && Membership(c.nodes)
    && BallotsBounded(c.nodes, c.ballots)
    && OneVotePerTerm(c.ballots)
    && CampaignsOk(c.nodes, c.ballots, c.campaigns)
    && BallotsCompared(c.ballots, c.campaigns)
  }

  /** Handlers and RPCs under way. */
  ghost predicate WorkOk(c: Cluster)
    requires Shape(c)
  {
    && PhasesOk(c.nodes, c.phases, c.ballots)
    && HandlersOk(c.phases, c.rpcs, c.campaigns)
    && RpcsOk(c.nodes.Keys, c.rpcs, c.ballots, c.campaigns)
  }

  /** Counting and winning. */
  ghost predicate CountsOk(c: Cluster)
    requires Shape(c)
  {
    && TalliesOk(c.nodes, c.counted, c.rpcs, c.ballots)
    && WinnersOk(c.nodes.Keys, c.ballots, c.winners)
    && WinsOk(c.wins, c.winners)
  }

  ghost predicate Inv(c: Cluster) {
    Shape(c) && VotesOk(c) && WorkOk(c) && CountsOk(c)
  }

  // ---------- A step at one node keeps it ----------

  /** History only grows: campaigns by node n, ballots by node n for campaigns at least as up to date. */
  ghost predicate Records(c: Cluster, c': Cluster, n: int) {
    && c.ballots.Keys <= c'.ballots.Keys
    && (forall b :: b in c'.ballots ==>
          (b in c.ballots && c'.ballots[b] == c.ballots[b]) || (b.voter == n && b.candidate in c.nodes))
    && (forall b :: b in c'.ballots && b.voter == n ==>
          Campaign(b.candidate, b.term) in c'.campaigns &&
              UpToDate(c'.campaigns[Campaign(b.candidate, b.term)], c'.ballots[b]))
    && (forall a, b :: a in c'.ballots && b in c'.ballots && a.voter == n && b.voter == n && a.term == b.term ==>
         a.candidate == b.candidate)
    && (forall g :: g in c.campaigns ==> g in c'.campaigns && c'.campaigns[g] == c.campaigns[g])
    && (forall g :: g in c'.campaigns ==> g in c.campaigns || (g.candidate == n && Ballot(n, g.term, n) in c'.ballots))
  }

  /** RPCs other than the one node n handles keep their place; consumed ones stay consumed. */
  ghost predicate MovesRpcs(c: Cluster, c': Cluster, n: int) {
    && c.rpcs.Keys <= c'.rpcs.Keys
    && (forall k :: k in c.rpcs && c.rpcs[k] == Consumed ==> c'.rpcs[k] == Consumed)
    && (forall k :: k in c.rpcs && c.rpcs[k] == InHandler && k.voter != n ==> c'.rpcs[k] == InHandler)
    && (forall k :: k in c'.rpcs && !(k in c.rpcs && c'.rpcs[k] == c.rpcs[k]) ==>
          RpcOk(k, c'.rpcs[k], c.nodes.Keys, c'.ballots, c'.campaigns))
  }

  /** What node n must show about its own state after the step. */
  ghost predicate LocallyOk(c: Cluster, n: int)
    requires Shape(c) && n in c.nodes
  {
    && Remembers(n, c.nodes[n], c.ballots)
    && PhaseOk(n, c.nodes[n].currentTerm, c.phases[n], c.ballots)
    && HandlerOk(n, c.phases[n], c.rpcs, c.campaigns)
    && TallyOk(n, c.nodes[n], c.counted[n], c.nodes.Keys, c.rpcs, c.ballots)
  }

  /** A campaign joins the winners only with a quorum behind it, and its event is stamped with its term. */
  ghost predicate Wins(c: Cluster, c': Cluster, n: int)
    requires Shape(c) && Shape(c') && n in c.nodes && n in c'.nodes
  {
    && c.winners <= c'.winners
    && (forall g :: g in c'.winners ==>
          g in c.winners || |Voters(c.nodes.Keys, c'.ballots, g)| >= VoteThreshold(|c.nodes.Keys|))
    && (forall t :: t in c'.wins[n] ==> t in c.wins[n] || Campaign(n, t) in c'.winners)
  }

  lemma KeepsMembership(nodes: map<int, Node>, n: int, node: Node)
    requires n in nodes && Membership(nodes) && node.id == nodes[n].id && node.peers == nodes[n].peers
    ensures Membership(nodes[n := node])
  {
  }

  lemma KeepsBounds(c: Cluster, c': Cluster, n: int)
    requires Touches(c, c', n) && Records(c, c', n) && Remembers(n, c'.nodes[n], c'.ballots)
    requires BallotsBounded(c.nodes, c.ballots)
    ensures BallotsBounded(c'.nodes, c'.ballots)
  {
  }

  lemma KeepsBallots(c: Cluster, c': Cluster, n: int)
    requires Touches(c, c', n) && Records(c, c', n)
    requires OneVotePerTerm(c.ballots) && BallotsCompared(c.ballots, c.campaigns)
    ensures OneVotePerTerm(c'.ballots) && BallotsCompared(c'.ballots, c'.campaigns)
  {
  }

  lemma KeepsCampaigns(c: Cluster, c': Cluster, n: int)
    requires Touches(c, c', n) && Records(c, c', n)
    requires CampaignsOk(c.nodes, c.ballots, c.campaigns)
    ensures CampaignsOk(c'.nodes, c'.ballots, c'.campaigns)
  {
  }

  lemma KeepsPhases(c: Cluster, c': Cluster, n: int)
    requires Touches(c, c', n) && Records(c, c', n) && PhaseOk(n, c'.nodes[n].currentTerm, c'.phases[n], c'.ballots)
    requires PhasesOk(c.nodes, c.phases, c.ballots)
    ensures PhasesOk(c'.nodes, c'.phases, c'.ballots)
  {
  }

  lemma KeepsHandlers(c: Cluster, c': Cluster, n: int)
    requires Touches(c, c', n) && Records(c, c', n) && MovesRpcs(c, c', n)
    requires HandlersOk(c.phases, c.rpcs, c.campaigns) && HandlerOk(n, c'.phases[n], c'.rpcs, c'.campaigns)
    ensures HandlersOk(c'.phases, c'.rpcs, c'.campaigns)
  {
  }

  lemma KeepsRpcs(c: Cluster, c': Cluster, n: int)
    requires Touches(c, c', n) && Records(c, c', n) && MovesRpcs(c, c', n)
    requires RpcsOk(c.nodes.Keys, c.rpcs, c.ballots, c.campaigns)
    ensures RpcsOk(c'.nodes.Keys, c'.rpcs, c'.ballots, c'.campaigns)
  {
  }

  lemma KeepsTallies(c: Cluster, c': Cluster, n: int)
    requires Touches(c, c', n) && c.ballots.Keys <= c'.ballots.Keys && MovesRpcs(c, c', n)
    requires TalliesOk(c.nodes, c.counted, c.rpcs, c.ballots)
    requires TallyOk(n, c'.nodes[n], c'.counted[n], c'.nodes.Keys, c'.rpcs, c'.ballots)
    ensures TalliesOk(c'.nodes, c'.counted, c'.rpcs, c'.ballots)
  {
  }

  lemma KeepsWinners(c: Cluster, c': Cluster, n: int)
    requires Touches(c, c', n) && c.ballots.Keys <= c'.ballots.Keys && Wins(c, c', n)
    requires WinnersOk(c.nodes.Keys, c.ballots, c.winners) && WinsOk(c.wins, c.winners)
    ensures WinnersOk(c'.nodes.Keys, c'.ballots, c'.winners) && WinsOk(c'.wins, c'.winners)
  {
    assert c'.nodes.Keys == c.nodes.Keys;
    forall g | g in c.winners
      ensures |Voters(c.nodes.Keys, c'.ballots, g)| >= VoteThreshold(|c.nodes.Keys|)
    {
      SubsetSize(Voters(c.nodes.Keys, c.ballots, g), Voters(c.nodes.Keys, c'.ballots, g));
    }
  }

  lemma Keeps(c: Cluster, c': Cluster, n: int)
    requires Touches(c, c', n) && Records(c, c', n) && MovesRpcs(c, c', n) && LocallyOk(c', n) && Wins(c, c', n)
    requires Inv(c)
    ensures Inv(c')
  {
    KeepsMembership(c.nodes, n, c'.nodes[n]);
    KeepsBounds(c, c', n);
    KeepsBallots(c, c', n);
    KeepsCampaigns(c, c', n);
    KeepsPhases(c, c', n);
    KeepsHandlers(c, c', n);
    KeepsRpcs(c, c', n);
    KeepsTallies(c, c', n);
    KeepsWinners(c, c', n);
  }
}
