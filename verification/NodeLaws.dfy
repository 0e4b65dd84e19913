/** What the handlers of one node do, spelled out on the fields of the node and on
    its log: when a vote is granted, when an AppendEntries request is taken, who
    steps down, and how many votes win. */
module NodeLaws {
  import opened RaftTypes
  import opened RaftNode

  /** The two agree on everything the election handlers do not write. */
  ghost predicate SameLog(a: Node, b: Node) {
    a.log == b.log && a.commitIndex == b.commitIndex && a.lastApplied == b.lastApplied
  }

  ghost predicate SameCampaign(a: Node, b: Node) {
    a.id == b.id && a.peers == b.peers && a.votesReceived == b.votesReceived && a.totalVotes == b.totalVotes
  }

  /** Sections 5.2 and 5.4.1 of the Raft paper: a vote is granted exactly to a request that
      is not stale, by a node that has not voted for another candidate in its term, and
      whose last entry has a smaller term, or the same term and no larger an index. */
  lemma VoteGrantedIff(n: Node, req: VoteRequest)
    ensures var reply := AnswerVote(n, req).1;
            var t := if n.log == [] then 0 else n.log[|n.log| - 1].term;
            var i := if n.log == [] then 0 else n.log[|n.log| - 1].index;
            && (reply.granted <==>
                && req.term >= n.currentTerm
                && (req.term > n.currentTerm || n.votedFor == -1 || n.votedFor == req.candidate)
                && (req.last.term > t || (req.last.term == t && req.last.index >= i)))
            && reply.term == (if req.term > n.currentTerm then req.term else n.currentTerm)
  {
  }

  /** What answering leaves: the larger term, the vote if it was given, none in a new term
      if it was not, and a follower if the term is new; nothing else changes. */
  lemma VoteLeaves(n: Node, req: VoteRequest)
    ensures var (n', reply) := AnswerVote(n, req);
            && n'.currentTerm == reply.term
            && n'.votedFor == (if reply.granted then req.candidate
                               else if req.term > n.currentTerm then -1 else n.votedFor)
            && n'.role == (if req.term > n.currentTerm then Follower else n.role)
            && n'.isMaster == n.isMaster && SameCampaign(n', n) && SameLog(n', n)
  {
  }

  /** A new node follows in term 0 with an empty log and has its vote to give: it grants the
      first request of a term from 0 on whose last entry is not below term 0, index 0. */
  lemma FirstVote(id: int, peers: seq<int>, isMaster: bool, req: VoteRequest)
    ensures var n := Fresh(id, peers, isMaster);
            && n.id == id && n.peers == peers && n.isMaster == isMaster && n.role == Follower && n.currentTerm == 0
            && n.log == [] && n.commitIndex == 0 && n.lastApplied == 0
            && (AnswerVote(n, req).1.granted <==>
                req.term >= 0 && (req.last.term > 0 || (req.last.term == 0 && req.last.index >= 0)))
  {
  }

  /** The threshold is a strict majority. */
  lemma MajorityWins(total: nat, votes: int)
    ensures votes >= Threshold(total) <==> 2 * votes > total
  {
  }

  /** A campaign is for the next term and starts with the node's own vote; it will take more
      than half of the node and its peers, and leaves log, indices and master flag alone. */
  lemma CampaignStarts(n: Node, votes: int)
    ensures var n' := BeginElection(n);
            && n'.role == Candidate && n'.currentTerm == n.currentTerm + 1 && n'.votedFor == n.id
            && n'.votesReceived == 1
            && (votes >= Threshold(n'.totalVotes) <==> 2 * votes > |n.peers| + 1)
            && n'.id == n.id && n'.peers == n.peers && n'.isMaster == n.isMaster && SameLog(n', n)
  {
    MajorityWins(|n.peers| + 1, votes);
  }

  /** The node after the reply to one of its vote requests. */
  function AfterReply(n: Node, term: int, granted: bool): Node {
    if CountsVote(n, term, granted) then CountVote(n) else n
  }

  /** A grant counts once, for the candidate of that very term; nothing else of the node changes. */
  lemma CountedIff(n: Node, term: int, granted: bool)
    ensures var counts := granted && n.role == Candidate && n.currentTerm == term;
            AfterReply(n, term, granted) == n.(votesReceived := n.votesReceived + if counts then 1 else 0)
  {
  }

  /** A new leader is what it was as a candidate but for its role and the master flag;
      nobody else becomes leader. */
  lemma LeadsIff(n: Node)
    ensures var n' := BecomeLeader(n);
            && (n'.role == Leader <==> n.role == Candidate || n.role == Leader)
            && (n.role == Candidate ==> n'.isMaster) && (n.role != Candidate ==> n' == n)
            && n'.currentTerm == n.currentTerm && n'.votedFor == n.votedFor && SameCampaign(n', n) && SameLog(n', n)
  {
  }

  /** A heartbeat reply of a term above both the one sent and the current one turns any node
      into a follower of that term that voted for nobody and is not master; any other reply
      changes nothing. */
  lemma StepsDownIff(n: Node, sentTerm: int, term: int)
    ensures var n' := HeartbeatReply(n, sentTerm, term);
            if term > sentTerm && term > n.currentTerm then
              && n'.currentTerm == term && n'.role == Follower && n'.votedFor == -1 && !n'.isMaster
              && SameCampaign(n', n) && SameLog(n', n)
            else n' == n
  {
  }

  /** A shipped string that decodes is stored as the decoded command, any other as it is, under
      the request's term and the next number after the previous entry's. */
  lemma RebuiltIs(decode: EntryDecoder, req: AppendRequest, i: nat)
    requires i < |req.entries|
    ensures var e := NewEntries(decode, req)[i];
            && e.term == req.term && e.index == req.prevLogIndex + 1 + i
            && (forall command :: decode(req.entries[i]) == Some(command) ==> e.command == command)
            && (decode(req.entries[i]) == None ==> e.command == req.entries[i])
  {
  }

  /** Taken or not, a request of a higher term turns the node into a follower of that term
      that voted for nobody and is not master, and no other request touches these fields. */
  lemma AppendStepsDown(decode: EntryDecoder, n: Node, req: AppendRequest)
    requires Wellformed(req)
    ensures var n' := Append(decode, n, req).0;
            && (if req.term > n.currentTerm then
                  n'.currentTerm == req.term && n'.role == Follower && n'.votedFor == -1 && !n'.isMaster
                else
                  && n'.currentTerm == n.currentTerm && n'.role == n.role && n'.votedFor == n.votedFor
                  && n'.isMaster == n.isMaster)
            && SameCampaign(n', n) && n'.lastApplied == n.lastApplied
  {
  }

  /** The commit index follows the leader's only when entries were taken, only upwards from
      its own value, and then not past the end of the log as it is now. */
  lemma CommitFollows(decode: EntryDecoder, n: Node, req: AppendRequest)
    requires Wellformed(req)
    ensures var (n', reply) := Append(decode, n, req);
            if reply.success && req.entries != [] && req.leaderCommit > n.commitIndex then
              n'.commitIndex == if req.leaderCommit <= |n'.log| then req.leaderCommit else |n'.log|
            else n'.commitIndex == n.commitIndex
  {
  }
}
