/** That elections succeed: a majority of grants is a win, a win is never forgotten,
    and from any state a node whose log a majority is not ahead of can be elected. */
module VoteProgress {
  import opened RaftTypes
  import opened RaftNode
  import opened VoteProtocol
  import opened VoteSafety
  import opened VoteGaps
  import NodeLaws

  // ---------- A majority of grants is a win ----------

  /** In every run a candidate's campaign has won if and only if the grants it counted, with
      its own vote, are more than half of the nodes. */
  lemma {:induction false} MajorityWinsIff(decode: EntryDecoder, start: Cluster, steps: seq<Step>, n: int)
    requires Init(start) && Legal(decode, start, steps)
    ensures var c := Final(decode, start, steps);
            n in c.nodes && c.nodes[n].role == Candidate ==>
              (Campaign(n, c.nodes[n].currentTerm) in c.winners <==> 2 * (1 + |c.counted[n]|) > |c.nodes|)
  {
    InitOk(start);
    InitKnown(start);
    RunKnown(decode, start, steps);
    var c := Final(decode, start, steps);
    if n in c.nodes && c.nodes[n].role == Candidate {
      HandlerAt(c, n);
      assert WonAt(n, c.nodes[n], c.winners);
      assert |c.nodes| == |c.nodes.Keys|;
      NodeLaws.MajorityWins(c.nodes[n].totalVotes, c.nodes[n].votesReceived);
    }
  }

  lemma {:induction false} RunKnown(decode: EntryDecoder, c: Cluster, steps: seq<Step>)
    requires Inv(c) && WinsKnown(c) && Legal(decode, c, steps)
    ensures Inv(Final(decode, c, steps)) && WinsKnown(Final(decode, c, steps))
    decreases |steps|
  {
    if steps != [] {
      StepKeeps(decode, c, steps[0]);
      StepKnown(decode, c, steps[0]);
      RunKnown(decode, Do(decode, c, steps[0]), steps[1..]);
    }
  }

  // ---------- A win is not forgotten ----------

  /** A candidate that has won has the event of that term still to handle. */
  ghost predicate QueuedAt(n: int, node: Node, winners: set<Campaign>, wins: seq<int>) {
    node.role == Candidate && Campaign(n, node.currentTerm) in winners ==> node.currentTerm in wins
  }

  ghost predicate WinsQueued(c: Cluster)
    requires Shape(c)
  {
    forall n {:trigger c.nodes[n]} :: n in c.nodes ==> QueuedAt(n, c.nodes[n], c.winners, c.wins[n])
  }

  lemma KeepsQueued(c: Cluster, c': Cluster, n: int)
    requires Shape(c) && Shape(c') && WinsQueued(c) && n in c.nodes && n in c'.nodes
    requires c'.nodes == c.nodes[n := c'.nodes[n]] && c'.wins == c.wins[n := c'.wins[n]]
    requires forall g :: g in c'.winners && g.candidate != n ==> g in c.winners
    requires QueuedAt(n, c'.nodes[n], c'.winners, c'.wins[n])
    ensures WinsQueued(c')
  {
  }

  lemma TimeoutQueues(c: Cluster, n: int)
    requires Inv(c) && WinsQueued(c) && Enabled(c, Timeout(n))
    ensures WinsQueued(DoTimeout(c, n))
  {
    var g := Campaign(n, c.nodes[n].currentTerm + 1);
    FreshCampaign(c, n, g.term);
    if g in c.winners {
      WinnersCampaigned(c, g);
    }
    KeepsQueued(c, DoTimeout(c, n), n);
  }

  lemma CountQueues(c: Cluster, k: RpcKey)
    requires Shape(c) && WinsQueued(c) && Enabled(c, Count(k)) && k.candidate in c.nodes
    ensures WinsQueued(DoCount(c, k))
  {
    assert QueuedAt(k.candidate, c.nodes[k.candidate], c.winners, c.wins[k.candidate]);
    KeepsQueued(c, DoCount(c, k), k.candidate);
  }

  lemma DeliverQueues(c: Cluster, k: RpcKey)
    requires Shape(c) && WinsQueued(c) && Enabled(c, Deliver(k))
    ensures WinsQueued(DoDeliver(c, k))
  {
  }

  lemma VoterQueues(decode: EntryDecoder, c: Cluster, s: Step)
    requires Shape(c) && WinsQueued(c) && Enabled(c, s) && (s.Adopt? || s.Check? || s.Grant? || s.HandleWin?)
    ensures WinsQueued(Do(decode, c, s))
  {
    assert QueuedAt(s.n, c.nodes[s.n], c.winners, c.wins[s.n]);
    KeepsQueued(c, Do(decode, c, s), s.n);
  }

  lemma OutsideQueues(decode: EntryDecoder, c: Cluster, s: Step)
    requires Shape(c) && WinsQueued(c) && Enabled(c, s) && (s.Heartbeat? || s.ReceiveAppend? || s.ReceiveReply?)
    ensures WinsQueued(Do(decode, c, s))
  {
    assert QueuedAt(s.n, c.nodes[s.n], c.winners, c.wins[s.n]);
    if s.ReceiveAppend? {
      CallsAreOutside(decode, c.nodes[s.n], s.append, 0, 0);
    }
    KeepsQueued(c, Do(decode, c, s), s.n);
  }

  lemma StepQueues(decode: EntryDecoder, c: Cluster, s: Step)
    requires Inv(c) && WinsQueued(c) && Enabled(c, s)
    ensures WinsQueued(Do(decode, c, s))
  {
    match s
    case Timeout(n) => TimeoutQueues(c, n);
    case Deliver(k) => DeliverQueues(c, k);
    case Count(k) => CountQueues(c, k);
    case Heartbeat(_) => OutsideQueues(decode, c, s);
    case ReceiveAppend(_, _) => OutsideQueues(decode, c, s);
    case ReceiveReply(_, _, _) => OutsideQueues(decode, c, s);
    case _ => VoterQueues(decode, c, s);
  }

  lemma {:induction false} RunQueues(decode: EntryDecoder, c: Cluster, steps: seq<Step>)
    requires Inv(c) && WinsQueued(c) && Legal(decode, c, steps)
    ensures WinsQueued(Final(decode, c, steps))
    decreases |steps|
  {
    if steps != [] {
      StepKeeps(decode, c, steps[0]);
      StepQueues(decode, c, steps[0]);
      RunQueues(decode, Do(decode, c, steps[0]), steps[1..]);
    }
  }

  /** In every run: whenever a node is still the candidate of a campaign that reached the
      threshold, the BecomeLeaderEvent of that term is in its queue. */
  lemma {:induction false} WinIsQueued(decode: EntryDecoder, start: Cluster, steps: seq<Step>, n: int)
    requires Init(start) && Legal(decode, start, steps)
    ensures var c := Final(decode, start, steps);
            n in c.nodes && c.nodes[n].role == Candidate && Campaign(n, c.nodes[n].currentTerm) in c.winners ==>
              c.nodes[n].currentTerm in c.wins[n]
  {
    InitOk(start);
    RunQueues(decode, start, steps);
    var c := Final(decode, start, steps);
    if n in c.nodes {
      assert QueuedAt(n, c.nodes[n], c.winners, c.wins[n]);
    }
  }

  // ---------- What may happen when ----------

  /** Calls on other goroutines may come at any moment, the vote handler's gaps included, and
      change the called node alone, as their handlers do; the heartbeat event they queue waits
      for the run loop and makes any node a follower, and nothing else of it changes. */
  lemma CallsAnyTime(decode: EntryDecoder, c: Cluster, n: int, append: AppendRequest, sentTerm: int, term: int)
    requires Shape(c) && n in c.nodes && Wellformed(append)
    ensures Enabled(c, ReceiveAppend(n, append)) && Enabled(c, ReceiveReply(n, sentTerm, term))
    ensures Do(decode, c, ReceiveAppend(n, append)) ==
        c.(nodes := c.nodes[n := Append(decode, c.nodes[n], append).0])
    ensures Do(decode, c, ReceiveReply(n, sentTerm, term)) ==
        c.(nodes := c.nodes[n := HeartbeatReply(c.nodes[n], sentTerm, term)])
    ensures Enabled(c, Heartbeat(n)) <==> c.phases[n].Idle?
    ensures c.phases[n].Idle? ==>
              Do(decode, c, Heartbeat(n)) == c.(nodes := c.nodes[n := c.nodes[n].(role := Follower)])
  {
  }

  /** A free node may time out in any role but leader, take any request that is under way to it
      and any reply that has come for it; a refusal it hears is used up and counts nothing. */
  lemma FreeNodesGoOn(decode: EntryDecoder, c: Cluster, n: int, k: RpcKey)
    requires Shape(c) && n in c.nodes && c.phases[n].Idle?
    ensures Enabled(c, Timeout(n)) <==> c.nodes[n].role != Leader
    ensures k in c.rpcs && k.voter == n ==> (Enabled(c, Deliver(k)) <==> c.rpcs[k].Requested?)
    ensures k in c.rpcs && k.candidate == n ==> (Enabled(c, Count(k)) <==> c.rpcs[k].Replied?)
    ensures k in c.rpcs && k.candidate == n && c.rpcs[k] == Replied(false) ==>
              Do(decode, c, Count(k)) == c.(rpcs := c.rpcs[k := Consumed])
    ensures Enabled(c, HandleWin(n)) <==> c.wins[n] != []
    ensures c.wins[n] != [] ==>
              Do(decode, c, HandleWin(n)).wins == c.wins[n := c.wins[n][1..]] &&
              (c.nodes[n].role != Candidate ==> Do(decode, c, HandleWin(n)).nodes == c.nodes)
  {
  }

  // ---------- A node that can be elected ----------

  /** The log's last entry is not ahead of this one: its term is smaller, or the same and its
      index no larger; an empty log counts as term 0, index 0. */
  ghost predicate NotAhead(log: seq<LogEntry>, last: LastLog) {
    if log == [] then last.term > 0 || (last.term == 0 && last.index >= 0)
    else
      var e := log[|log| - 1];
      last.term > e.term || (last.term == e.term && last.index >= e.index)
  }

  /** Node v would vote: it is free, of a smaller term, and not ahead. */
  ghost predicate Willing(c: Cluster, v: int, term: int, last: LastLog) {
    Shape(c) && v in c.nodes && c.phases[v].Idle? && c.nodes[v].currentTerm < term && NotAhead(c.nodes[v].log, last)
  }

  /** Node n is free and the candidate of this term with so many votes. */
  ghost predicate Campaigning(c: Cluster, n: int, term: int, votes: nat, total: nat) {
    && Shape(c) && n in c.nodes && c.phases[n].Idle?
    && c.nodes[n].role == Candidate && c.nodes[n].currentTerm == term
    && c.nodes[n].votesReceived == votes && c.nodes[n].totalVotes == total
  }

  ghost predicate Asked(c: Cluster, n: int, term: int, v: int, last: LastLog) {
    RpcKey(n, term, v) in c.rpcs && c.rpcs[RpcKey(n, term, v)] == Requested(last)
  }

  function Voting(k: RpcKey): seq<Step> {
    ([Deliver(k)] + [Adopt(k.voter)]) + ([Check(k.voter)] + [Grant(k.voter)])
  }

  /** Everything but the candidate, the voter and their RPC stays as it is. */
  ghost predicate OthersStay(c: Cluster, c': Cluster, k: RpcKey) {
    && Shape(c) && Shape(c') && c'.nodes.Keys == c.nodes.Keys
    && (forall w :: w in c.nodes && w != k.candidate && w != k.voter ==>
          c'.nodes[w] == c.nodes[w] && c'.phases[w] == c.phases[w])
    && (forall j :: j in c.rpcs && j != k ==> j in c'.rpcs && c'.rpcs[j] == c.rpcs[j])
  }

  /** After the first two sections the voter is in the new term and about to compare. */
  lemma VoterAdopts(decode: EntryDecoder, c: Cluster, k: RpcKey) returns (c': Cluster)
    requires Shape(c) && k in c.rpcs && c.rpcs[k].Requested?
    requires Willing(c, k.voter, k.term, c.rpcs[k].last)
    ensures Precedes(decode, c, [Deliver(k)] + [Adopt(k.voter)], c')
    ensures Touches(c, c', k.voter) && c'.wins == c.wins && c'.rpcs == c.rpcs[k := InHandler]
    ensures c'.phases[k.voter] == Checking(VoteRequest(k.term, k.candidate, c.rpcs[k].last))
    ensures c'.nodes[k.voter] == c.nodes[k.voter].(currentTerm := k.term, votedFor := NOBODY, role := Follower)
  {
    var c1 := DoDeliver(c, k);
    c' := DoAdopt(c1, k.voter);
    One(decode, c, Deliver(k));
    One(decode, c1, Adopt(k.voter));
    Then(decode, c, [Deliver(k)], c1, [Adopt(k.voter)], c');
  }

  lemma VoterCompares(c: Cluster, k: RpcKey, last: LastLog)
    requires Shape(c) && k.voter in c.nodes
    requires c.nodes[k.voter].votedFor == NOBODY && NotAhead(c.nodes[k.voter].log, last)
    ensures var req := VoteRequest(k.term, k.candidate, last);
            Evaluate(c, k.voter, req) == MoveOn(c, k.voter, Granting(req, LastOf(c.nodes[k.voter].log)), k, InHandler)
  {
  }

  /** And after the other two it has voted. */
  lemma VoterGrants(decode: EntryDecoder, c: Cluster, k: RpcKey, last: LastLog) returns (c': Cluster)
    requires Shape(c) && k.voter in c.nodes && c.phases[k.voter] == Checking(VoteRequest(k.term, k.candidate, last))
    requires c.nodes[k.voter].votedFor == NOBODY && NotAhead(c.nodes[k.voter].log, last)
    ensures Precedes(decode, c, [Check(k.voter)] + [Grant(k.voter)], c')
    ensures Touches(c, c', k.voter) && c'.wins == c.wins && c'.rpcs == c.rpcs[k := Replied(true)]
    ensures c'.phases[k.voter].Idle? && c'.nodes[k.voter] == c.nodes[k.voter].(votedFor := k.candidate)
  {
    VoterCompares(c, k, last);
    var c1 := Evaluate(c, k.voter, VoteRequest(k.term, k.candidate, last));
    assert c1 == Do(decode, c, Check(k.voter)) && c1.phases[k.voter].Granting?;
    c' := DoGrant(c1, k.voter);
    One(decode, c, Check(k.voter));
    One(decode, c1, Grant(k.voter));
    Then(decode, c, [Check(k.voter)], c1, [Grant(k.voter)], c');
  }

  lemma TouchesTwice(c: Cluster, c1: Cluster, c2: Cluster, n: int)
    requires Touches(c, c1, n) && Touches(c1, c2, n)
    ensures Touches(c, c2, n)
  {
  }

  lemma Votes(decode: EntryDecoder, c: Cluster, k: RpcKey) returns (c': Cluster)
    requires Shape(c) && k in c.rpcs && c.rpcs[k].Requested?
    requires Willing(c, k.voter, k.term, c.rpcs[k].last)
    ensures Precedes(decode, c, Voting(k), c')
    ensures Touches(c, c', k.voter) && c'.wins == c.wins && c'.rpcs == c.rpcs[k := Replied(true)]
    ensures c'.phases[k.voter].Idle? && c'.nodes[k.voter].votedFor == k.candidate
    ensures c'.nodes[k.voter].currentTerm == k.term
  {
    var c1 := VoterAdopts(decode, c, k);
    c' := VoterGrants(decode, c1, k, c.rpcs[k].last);
    TouchesTwice(c, c1, c', k.voter);
    Then(decode, c, [Deliver(k)] + [Adopt(k.voter)], c1, [Check(k.voter)] + [Grant(k.voter)], c');
  }

  /** The grant that arrives is counted, and a majority queues the event. */
  lemma Counts(decode: EntryDecoder, c: Cluster, k: RpcKey, votes: nat, total: nat) returns (c': Cluster)
    requires Campaigning(c, k.candidate, k.term, votes, total) && k in c.rpcs && c.rpcs[k] == Replied(true)
    ensures Precedes(decode, c, [Count(k)], c')
    ensures Campaigning(c', k.candidate, k.term, votes + 1, total)
    ensures Touches(c, c', k.candidate) && c'.phases == c.phases && c'.rpcs == c.rpcs[k := Consumed]
    ensures 2 * (votes + 1) > total ==> c'.wins[k.candidate] != []
    ensures c'.nodes[k.candidate].log == c.nodes[k.candidate].log
  {
    c' := DoCount(c, k);
    NodeLaws.MajorityWins(total, votes + 1);
    One(decode, c, Count(k));
  }

  /** One willing voter brings the candidate one vote. */
  lemma Collects(decode: EntryDecoder, c: Cluster, k: RpcKey, votes: nat, total: nat, last: LastLog)
    returns (steps: seq<Step>, c': Cluster)
    requires Campaigning(c, k.candidate, k.term, votes, total) && k.candidate != k.voter
    requires Asked(c, k.candidate, k.term, k.voter, last) && Willing(c, k.voter, k.term, last)
    ensures Precedes(decode, c, steps, c')
    ensures Campaigning(c', k.candidate, k.term, votes + 1, total) && OthersStay(c, c', k)
    ensures 2 * (votes + 1) > total ==> c'.wins[k.candidate] != []
    ensures c'.nodes[k.candidate].log == c.nodes[k.candidate].log
  {
    var c1 := Votes(decode, c, k);
    c' := Counts(decode, c1, k, votes, total);
    steps := Voting(k) + [Count(k)];
    Then(decode, c, Voting(k), c1, [Count(k)], c');
  }

  /** These voters have been asked, are willing, and are not the candidate. */
  ghost predicate AllWilling(c: Cluster, n: int, term: int, last: LastLog, voters: seq<int>) {
    forall i {:trigger voters[i]} :: 0 <= i < |voters| ==>
      voters[i] != n && Asked(c, n, term, voters[i], last) && Willing(c, voters[i], term, last)
  }

  lemma StillWilling(c: Cluster, c': Cluster, n: int, term: int, last: LastLog, voters: seq<int>)
    requires voters != [] && Distinct(voters) && AllWilling(c, n, term, last, voters)
    requires OthersStay(c, c', RpcKey(n, term, voters[0]))
    ensures AllWilling(c', n, term, last, voters[1..])
  {
    forall i | 0 <= i < |voters| - 1
      ensures voters[1..][i] != n && Asked(c', n, term, voters[1..][i], last) && Willing(c', voters[1..][i], term, last)
    {
      assert voters[1..][i] == voters[i + 1] && voters[i + 1] != voters[0];
    }
  }

  /** All of them, one after the other. */
  lemma {:induction false} CollectsAll(decode: EntryDecoder, c: Cluster, n: int, term: int, votes: nat, total: nat,
        last: LastLog, voters: seq<int>) returns (steps: seq<Step>, c': Cluster)
    requires Campaigning(c, n, term, votes, total)
    requires Distinct(voters) && AllWilling(c, n, term, last, voters)
    ensures Precedes(decode, c, steps, c') && Campaigning(c', n, term, votes + |voters|, total)
    ensures voters != [] && 2 * (votes + |voters|) > total ==> c'.wins[n] != []
    ensures c'.nodes[n].log == c.nodes[n].log
    decreases |voters|
  {
    if voters == [] {
      steps, c' := [], c;
      Stay(decode, c);
    } else {
      var first, c1 := Collects(decode, c, RpcKey(n, term, voters[0]), votes, total, last);
      if |voters| == 1 {
        steps, c' := first, c1;
      } else {
        StillWilling(c, c1, n, term, last, voters);
        var more;
        more, c' := CollectsAll(decode, c1, n, term, votes + 1, total, last, voters[1..]);
        steps := first + more;
        Then(decode, c, first, c1, more, c');
      }
    }
  }

  lemma {:induction false} Stay(decode: EntryDecoder, c: Cluster)
    ensures Precedes(decode, c, [], c)
  {
    forall rest | Legal(decode, c, rest)
      ensures Legal(decode, c, [] + rest) && Final(decode, c, [] + rest) == Final(decode, c, rest)
    {
      assert [] + rest == rest;
    }
  }

  /** What the node would ask with. */
  function LastEntry(log: seq<LogEntry>): LastLog {
    if log == [] then LastLog(0, 0) else LastLog(log[|log| - 1].term, log[|log| - 1].index)
  }

  /** These peers are free, of no larger a term, and not ahead. */
  ghost predicate Electors(c: Cluster, n: int, voters: seq<int>) {
    && Shape(c) && n in c.nodes && Distinct(voters)
    && forall i {:trigger voters[i]} :: 0 <= i < |voters| ==>
         && voters[i] in c.nodes[n].peers && voters[i] != n
         && Willing(c, voters[i], c.nodes[n].currentTerm + 1, LastEntry(c.nodes[n].log))
  }

  /** The timeout asks every peer with the candidate's last entry. */
  lemma Asks(decode: EntryDecoder, c: Cluster, n: int, voters: seq<int>) returns (c': Cluster)
    requires Shape(c) && Enabled(c, Timeout(n)) && Electors(c, n, voters)
    ensures Precedes(decode, c, [Timeout(n)], c')
    ensures Campaigning(c', n, c.nodes[n].currentTerm + 1, 1, |c.nodes[n].peers| + 1)
    ensures AllWilling(c', n, c.nodes[n].currentTerm + 1, LastEntry(c.nodes[n].log), voters)
    ensures c.nodes[n].peers == [] ==> c'.wins[n] != []
    ensures c'.nodes[n].log == c.nodes[n].log
  {
    c' := DoTimeout(c, n);
    One(decode, c, Timeout(n));
  }

  lemma Leads(decode: EntryDecoder, c: Cluster, n: int, term: int, votes: nat, total: nat) returns (c': Cluster)
    requires Campaigning(c, n, term, votes, total) && c.wins[n] != []
    ensures Precedes(decode, c, [HandleWin(n)], c') && Shape(c') && n in c'.nodes
    ensures c'.nodes[n].role == Leader && c'.nodes[n].isMaster && c'.nodes[n].currentTerm == term
    ensures c'.nodes[n].log == c.nodes[n].log
  {
    c' := DoHandleWin(c, n);
    One(decode, c, HandleWin(n));
  }

  /** From any state: a node that is free and not leader can be elected to its next term, if
      it and peers that are free, of no larger a term, and with a last entry not ahead of
      its own are more than half of the cluster.  The run is its timeout, their votes, and
      its BecomeLeaderEvent; its log stays as it was. */
  lemma CanBeElected(decode: EntryDecoder, c: Cluster, n: int, voters: seq<int>) returns (steps: seq<Step>)
    requires Shape(c) && n in c.nodes && c.phases[n].Idle? && c.nodes[n].role != Leader
    requires Electors(c, n, voters) && 2 * (1 + |voters|) > |c.nodes[n].peers| + 1
    ensures Legal(decode, c, steps)
    ensures var node := Final(decode, c, steps).nodes[n];
            && node.role == Leader && node.isMaster && node.currentTerm == c.nodes[n].currentTerm + 1
            && node.log == c.nodes[n].log
  {
    var term, total, last := c.nodes[n].currentTerm + 1, |c.nodes[n].peers| + 1, LastEntry(c.nodes[n].log);
    var c1 := Asks(decode, c, n, voters);
    var collecting, c2 := CollectsAll(decode, c1, n, term, 1, total, last, voters);
    if voters == [] {
      assert c.nodes[n].peers == [];
      var c3 := Leads(decode, c1, n, term, 1, total);
      steps := [Timeout(n)] + [HandleWin(n)];
      Then(decode, c, [Timeout(n)], c1, [HandleWin(n)], c3);
      Arrive(decode, c, steps, c3);
    } else {
      var c3 := Leads(decode, c2, n, term, 1 + |voters|, total);
      Then(decode, c1, collecting, c2, [HandleWin(n)], c3);
      Then(decode, c, [Timeout(n)], c1, collecting + [HandleWin(n)], c3);
      steps := [Timeout(n)] + (collecting + [HandleWin(n)]);
      Arrive(decode, c, steps, c3);
    }
  }
}
