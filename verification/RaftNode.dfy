/** One node's RaftStateMachine: the election handlers, AppendEntries and the
    apply loop.  `Node` is the value of its fields; every method of the class is
    proved against a function on `Node`, and the properties are proved about
    those functions in the modules that follow. */
module RaftNode {
  import opened RaftTypes
  import opened CommandCodec
  import opened KvStore

  const NOBODY := -1

  datatype Role = Follower | Candidate | Leader

  datatype Node = Node(
    id: int,
    peers: seq<int>,
    role: Role,
    isMaster: bool,
    currentTerm: int,
    votedFor: int,
    votesReceived: int,
    totalVotes: int,
    log: seq<LogEntry>,
    commitIndex: int,
    lastApplied: int)

  datatype VoteRequest = VoteRequest(term: int, candidate: int, last: LastLog)

  datatype VoteReply = VoteReply(term: int, granted: bool)

  /** Reading a shipped string as a JSON log entry, as far as its command goes. */
  type EntryDecoder = string -> Option<string>

  /** The command a follower stores for a shipped string: strings that are not JSON stand for themselves. */
  function Stored(decode: EntryDecoder, text: string): string {
    match decode(text)
    case Some(command) => command
    case None => text
  }

  // ---------- Election ----------

  function Fresh(id: int, peers: seq<int>, isMaster: bool): Node {
    Node(id, peers, Follower, isMaster, 0, NOBODY, 0, 0, [], 0, 0)
  }

  function BeginElection(n: Node): Node {
    n.(role := Candidate, currentTerm := n.currentTerm + 1, votedFor := n.id,
       votesReceived := 1, totalVotes := |n.peers| + 1)
  }

  function Threshold(totalVotes: int): int { totalVotes / 2 + 1 }

  /** The write made when a vote request carries a higher term. */
  function AdoptTerm(n: Node, term: int): Node {
    n.(currentTerm := term, votedFor := NOBODY, role := Follower)
  }

  predicate MayVote(n: Node, req: VoteRequest) {
    (n.votedFor == NOBODY || n.votedFor == req.candidate) && UpToDate(req.last, LastOf(n.log))
  }

  function CastVote(n: Node, candidate: int): Node { n.(votedFor := candidate) }

  /** The whole vote handler when nothing interrupts it. */
  function AnswerVote(n: Node, req: VoteRequest): (Node, VoteReply) {
    if req.term < n.currentTerm then (n, VoteReply(n.currentTerm, false))
    else
      var n1 := if req.term > n.currentTerm then AdoptTerm(n, req.term) else n;
      if MayVote(n1, req) then (CastVote(n1, req.candidate), VoteReply(req.term, true))
      else (n1, VoteReply(req.term, false))
  }

  predicate CountsVote(n: Node, term: int, granted: bool) {
    n.role == Candidate && n.currentTerm == term && granted
  }

  function CountVote(n: Node): Node { n.(votesReceived := n.votesReceived + 1) }

  function BecomeLeader(n: Node): Node {
    if n.role == Candidate then n.(role := Leader, isMaster := true) else n
  }

  /** The value a new leader writes for each of its peers. */
  function Reset(m: map<int, int>, peers: seq<int>, value: int): map<int, int> {
    if peers == [] then m else Reset(m, peers[..|peers| - 1], value)[peers[|peers| - 1] := value]
  }

  /** It reaches every peer and nothing else. */
  lemma {:induction false} ResetIs(m: map<int, int>, peers: seq<int>, value: int)
    ensures forall p :: p in Reset(m, peers, value) <==> p in m || p in peers
    ensures forall p :: p in peers ==> Reset(m, peers, value)[p] == value
    ensures forall p :: p in m && p !in peers ==> Reset(m, peers, value)[p] == m[p]
  {
    if peers != [] {
      var n := |peers| - 1;
      ResetIs(m, peers[..n], value);
      assert peers == peers[..n] + [peers[n]];
    }
  }

  /** A higher term seen in AppendEntries or in a heartbeat reply. */
  function StepDown(n: Node, term: int): Node {
    n.(currentTerm := term, votedFor := NOBODY, role := Follower, isMaster := false)
  }

  function HeartbeatReply(n: Node, sentTerm: int, term: int): Node {
    if term > sentTerm && term > n.currentTerm then StepDown(n, term) else n
  }

  // ---------- Log replication, follower side ----------

  function NewEntries(decode: EntryDecoder, req: AppendRequest): (r: seq<LogEntry>)
    ensures |r| == |req.entries|
    ensures forall i :: 0 <= i < |r| ==>
              r[i] == LogEntry(req.term, req.prevLogIndex + 1 + i, Stored(decode, req.entries[i]))
  {
    seq(|req.entries|, i requires 0 <= i < |req.entries| =>
      LogEntry(req.term, req.prevLogIndex + 1 + i, Stored(decode, req.entries[i])))
  }

  /** How much of the log survives entries of `term` for positions from..to: all of
      it, or what precedes the first position there holding another term. */
  function Kept(log: seq<LogEntry>, term: int, from: nat, to: nat): (r: nat)
    requires from <= |log|
    ensures from <= r <= |log|
    ensures forall i :: from <= i < r && i < to ==> log[i].term == term
    ensures r < |log| ==> r < to && log[r].term != term
    decreases |log| - from
  {
    if from >= to || from >= |log| then |log|
    else if log[from].term != term then from
    else Kept(log, term, from + 1, to)
  }

  /** The log after the conflict scan, the truncation and the append. */
  function Merge(log: seq<LogEntry>, term: int, prev: nat, added: seq<LogEntry>): seq<LogEntry>
    requires prev <= |log|
  {
    var kept := log[..Kept(log, term, prev, prev + |added|)];
    if |kept| < |added| then kept + added[|kept|..] else kept
  }

  predicate PrevMatches(log: seq<LogEntry>, prev: int, prevTerm: int) {
    prev <= |log| && (prev > 0 ==> log[prev - 1].term == prevTerm)
  }

  function AdvanceCommit(n: Node, leaderCommit: int): Node {
    if leaderCommit > n.commitIndex then n.(commitIndex := Min(leaderCommit, |n.log|)) else n
  }

  function Append(decode: EntryDecoder, n: Node, req: AppendRequest): (Node, AppendReply)
    requires Wellformed(req)
  {
    if req.term < n.currentTerm then (n, AppendReply(n.currentTerm, false))
    else
      var n1 := if req.term > n.currentTerm then StepDown(n, req.term) else n;
      if req.entries == [] then (n1, AppendReply(n.currentTerm, true))
      else if !PrevMatches(n1.log, req.prevLogIndex, req.prevLogTerm) then (n1, AppendReply(n.currentTerm, false))
      else
        var merged := Merge(n1.log, req.term, req.prevLogIndex, NewEntries(decode, req));
        (AdvanceCommit(n1.(log := merged), req.leaderCommit), AppendReply(n.currentTerm, true))
  }

  // ---------- Applying committed entries ----------

  function ApplyFrom(json: JsonDecoder, log: seq<LogEntry>, commit: int, i: int, last: int, st: Store): Applied
    requires i >= 1
    decreases |log| - i
  {
    if i > commit || i - 1 >= |log| then Applied(last, st, None)
    else
      var e := log[i - 1];
      if e.index <= last then ApplyFrom(json, log, commit, i + 1, last, st)
      else
        var (st', r) := ApplyEntry(json, st, e);
        if Halts(r) then Applied(last, st, Some(r.error))
        else ApplyFrom(json, log, commit, i + 1, e.index, st')
  }

  /** One turn of the loop. */
  lemma ApplyFromNext(json: JsonDecoder, log: seq<LogEntry>, commit: int, i: int, last: int, st: Store)
    requires 1 <= i <= commit && i - 1 < |log|
    ensures var e := log[i - 1];
            var (st', r) := ApplyEntry(json, st, e);
            ApplyFrom(json, log, commit, i, last, st) ==
            if e.index <= last then ApplyFrom(json, log, commit, i + 1, last, st)
            else if Halts(r) then Applied(last, st, Some(r.error))
            else ApplyFrom(json, log, commit, i + 1, e.index, st')
  {
  }

  function ApplyCommitted(json: JsonDecoder, n: Node, st: Store): (Node, Store, Option<string>)
    requires n.lastApplied >= 0
  {
    if n.lastApplied >= n.commitIndex then (n, st, None)
    else
      var r := ApplyFrom(json, n.log, n.commitIndex, n.lastApplied + 1, n.lastApplied, st);
      (n.(lastApplied := r.lastApplied), r.store, r.error)
  }

  // ---------- The object ----------

  class RaftStateMachine {
    const id: int
    const peers: seq<int>
    var role: Role
    var isMaster: bool
    var currentTerm: int
    var votedFor: int
    var votesReceived: int
    var totalVotes: int
    var log: seq<LogEntry>
    var commitIndex: int
    var lastApplied: int
    var nextIndex: map<int, int>
    var matchIndex: map<int, int>

    constructor (id: int, peers: seq<int>, isMaster: bool)
      ensures View() == Fresh(id, peers, isMaster)
      ensures nextIndex == map[] && matchIndex == map[]
    {
      this.id, this.peers, this.isMaster := id, peers, isMaster;
      role := Follower;
      currentTerm, votedFor := 0, NOBODY;
      votesReceived, totalVotes := 0, 0;
      log, commitIndex, lastApplied := [], 0, 0;
      nextIndex, matchIndex := map[], map[];
    }

    function View(): Node
      reads this
    {
      Node(id, peers, role, isMaster, currentTerm, votedFor, votesReceived, totalVotes, log, commitIndex, lastApplied)
    }

    /** handleElectionTimeout: the vote request to send, or None for a leader or a
        single node; `won` says that a BecomeLeaderEvent is queued at once. */
    method HandleElectionTimeout() returns (request: Option<VoteRequest>, won: bool)
      modifies this
      ensures View() == if old(role) == Leader then old(View()) else BeginElection(old(View()))
      ensures won == (old(role) != Leader && |peers| == 0)
      ensures request == if old(role) != Leader && |peers| > 0
                         then Some(VoteRequest(currentTerm, id, LastOf(log))) else None
      ensures nextIndex == old(nextIndex) && matchIndex == old(matchIndex)
    {
      if role == Leader {
        return None, false;
      }
      role := Candidate;
      currentTerm := currentTerm + 1;
      votedFor := id;
      votesReceived := 1;
      totalVotes := |peers| + 1;
      var lastTerm, lastIndex := 0, 0;
      if |log| > 0 {
        lastTerm, lastIndex := log[|log| - 1].term, log[|log| - 1].index;
      }
      if |peers| == 0 || totalVotes <= 1 {
        return None, true;
      }
      return Some(VoteRequest(currentTerm, id, LastLog(lastTerm, lastIndex))), false;
    }

    /** handleRequestVote, run without interruption. */
    method HandleRequestVote(req: VoteRequest) returns (reply: VoteReply)
      modifies this
      ensures (View(), reply) == AnswerVote(old(View()), req)
      ensures nextIndex == old(nextIndex) && matchIndex == old(matchIndex)
    {
      if req.term < currentTerm {
        return VoteReply(currentTerm, false);
      }
      var voteGranted := false;
      var term := currentTerm;
      if req.term > currentTerm {
        currentTerm := req.term;
        votedFor := NOBODY;
        role := Follower;
        term := currentTerm;
      }
      if votedFor == NOBODY || votedFor == req.candidate {
        var lastTerm, lastIndex := 0, 0;
        if |log| > 0 {
          lastTerm, lastIndex := log[|log| - 1].term, log[|log| - 1].index;
        }
        var logOK := req.last.term > lastTerm || (req.last.term == lastTerm && req.last.index >= lastIndex);
        if logOK {
          votedFor := req.candidate;
          voteGranted := true;
        }
      }
      reply := VoteReply(term, voteGranted);
    }

    /** handleRequestVoteResponse: `won` says that a BecomeLeaderEvent is queued. */
    method HandleRequestVoteResponse(term: int, granted: bool) returns (won: bool)
      modifies this
      ensures View() == if CountsVote(old(View()), term, granted) then CountVote(old(View())) else old(View())
      ensures won == (CountsVote(old(View()), term, granted) && votesReceived >= Threshold(totalVotes))
      ensures nextIndex == old(nextIndex) && matchIndex == old(matchIndex)
    {
      won := false;
      if role != Candidate || currentTerm != term {
        return;
      }
      if granted {
        votesReceived := votesReceived + 1;
        var votesNeeded := totalVotes / 2 + 1;
        won := votesReceived >= votesNeeded;
      }
    }

    /** handleBecomeLeader: every peer's nextIndex starts past the last entry. */
    method HandleBecomeLeader()
      modifies this
      ensures View() == BecomeLeader(old(View()))
      ensures nextIndex == if old(role) == Candidate then Reset(old(nextIndex), peers, LastIndex(log) + 1)
                           else old(nextIndex)
      ensures matchIndex == if old(role) == Candidate then Reset(old(matchIndex), peers, 0) else old(matchIndex)
    {
      if role != Candidate {
        return;
      }
      role := Leader;
      isMaster := true;
      for i := 0 to |peers|
        invariant View() == BecomeLeader(old(View()))
        invariant nextIndex == Reset(old(nextIndex), peers[..i], LastIndex(log) + 1)
        invariant matchIndex == Reset(old(matchIndex), peers[..i], 0)
      {
        assert peers[..i + 1][..i] == peers[..i];
        var last := 0;
        if |log| > 0 {
          last := log[|log| - 1].index;
        }
        nextIndex := nextIndex[peers[i] := last + 1];
        matchIndex := matchIndex[peers[i] := 0];
      }
      assert peers[..|peers|] == peers;
    }

    /** handleHeartbeat, the handler of the event every AppendEntries call queues. */
    method HandleHeartbeat()
      modifies this
      ensures View() == old(View()).(role := Follower)
      ensures nextIndex == old(nextIndex) && matchIndex == old(matchIndex)
    {
      role := Follower;
    }

    /** The reply branch of sendHeartbeats. */
    method HandleHeartbeatReply(sentTerm: int, term: int)
      modifies this
      ensures View() == HeartbeatReply(old(View()), sentTerm, term)
      ensures nextIndex == old(nextIndex) && matchIndex == old(matchIndex)
    {
      if term > sentTerm {
        if term > currentTerm {
          currentTerm := term;
          votedFor := NOBODY;
          role := Follower;
          isMaster := false;
        }
      }
    }

    method AppendEntries(decode: EntryDecoder, req: AppendRequest) returns (reply: AppendReply)
      requires Wellformed(req)
      modifies this
      ensures (View(), reply) == Append(decode, old(View()), req)
      ensures nextIndex == old(nextIndex) && matchIndex == old(matchIndex)
    {
      reply := AppendReply(currentTerm, false);
      if req.term < currentTerm {
        return;
      }
      if req.term > currentTerm {
        currentTerm := req.term;
        votedFor := NOBODY;
        role := Follower;
        isMaster := false;
      }
      if |req.entries| == 0 {
        return reply.(success := true);
      }
      if req.prevLogIndex > |log| {
        return;
      }
      if req.prevLogIndex > 0 {
        if log[req.prevLogIndex - 1].term != req.prevLogTerm {
          return;
        }
      }
      var added := DecodeEntries(decode, req);
      StoreEntries(added, req);
      if req.leaderCommit > commitIndex {
        commitIndex := Min(req.leaderCommit, |log|);
      }
      reply := reply.(success := true);
    }

    static method DecodeEntries(decode: EntryDecoder, req: AppendRequest) returns (added: seq<LogEntry>)
      ensures added == NewEntries(decode, req)
    {
      added := [];
      var startIndex := req.prevLogIndex + 1;
      for i := 0 to |req.entries|
        invariant added == NewEntries(decode, req)[..i]
      {
        var entry;
        match decode(req.entries[i]) {
          case None => entry := LogEntry(req.term, startIndex + i, req.entries[i]);
          case Some(command) => entry := LogEntry(req.term, startIndex + i, command);
        }
        added := added + [entry];
      }
    }

    /** The scan for the first new entry whose term differs from the stored one; -1 when there is none. */
    method FindConflict(added: seq<LogEntry>, req: AppendRequest) returns (conflict: int)
      requires 0 <= req.prevLogIndex <= |log|
      requires forall i :: 0 <= i < |added| ==> added[i].index == req.prevLogIndex + 1 + i && added[i].term == req.term
      ensures -1 <= conflict < |added|
      ensures var kept := Kept(log, req.term, req.prevLogIndex, req.prevLogIndex + |added|);
              if conflict == -1 then kept == |log| else kept == req.prevLogIndex + conflict
    {
      conflict := -1;
      var i := 0;
      while i < |added|
        invariant 0 <= i <= |added| && req.prevLogIndex + i <= |log|
        invariant Kept(log, req.term, req.prevLogIndex, req.prevLogIndex + |added|)
               == Kept(log, req.term, req.prevLogIndex + i, req.prevLogIndex + |added|)
      {
        var pos := added[i].index - 1;
        if pos >= |log| {
          break;
        }
        if log[pos].term != added[i].term {
          conflict := i;
          break;
        }
        i := i + 1;
      }
    }

    /** Truncate at the first conflict, then append from the offset the code computes. */
    method StoreEntries(added: seq<LogEntry>, req: AppendRequest)
      requires 0 <= req.prevLogIndex <= |log|
      requires forall i :: 0 <= i < |added| ==> added[i].index == req.prevLogIndex + 1 + i && added[i].term == req.term
      modifies this`log
      ensures log == Merge(old(log), req.term, req.prevLogIndex, added)
    {
      var conflict := FindConflict(added, req);
      if conflict != -1 {
        log := log[..added[conflict].index - 1];
      }
      assert log == old(log)[..Kept(old(log), req.term, req.prevLogIndex, req.prevLogIndex + |added|)];
      var start := 0;
      if |log| > 0 {
        start := |log|;
      }
      if start < |added| {
        log := log + added[start..];
      }
      assert log == Merge(old(log), req.term, req.prevLogIndex, added);
    }

    /** applyCommittedLogs against the node's key-value store. */
    method ApplyCommittedLogs(json: JsonDecoder, kv: StateMachine) returns (error: Option<string>)
      requires lastApplied >= 0
      modifies this`lastApplied, kv
      ensures (View(), kv.View(), error) == ApplyCommitted(json, old(View()), old(kv.View()))
    {
      error := None;
      if lastApplied >= commitIndex {
        return;
      }
      var i := lastApplied + 1;
      while i <= commitIndex && i - 1 < |log|
        invariant i >= 1
        invariant ApplyFrom(json, log, commitIndex, old(lastApplied) + 1, old(lastApplied), old(kv.View()))
               == ApplyFrom(json, log, commitIndex, i, lastApplied, kv.View())
        decreases |log| - i
      {
        ApplyFromNext(json, log, commitIndex, i, lastApplied, kv.View());
        var entry := log[i - 1];
        i := i + 1;
        if entry.index <= lastApplied {
          continue;
        }
        var result := kv.ApplyLog(json, entry);
        if Halts(result) {
          return Some(result.error);
        }
        lastApplied := entry.index;
      }
    }
  }
}
