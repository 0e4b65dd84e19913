/** What doPreCommit sends and how NextIndex moves, over every run of the leader. */
module Shipping {
  import opened RaftTypes
  import opened CommandCodec
  import opened KvStore
  import opened LeaderState
  import opened Replication
  import opened LeaderStore
  import opened Recovery
  import opened Quorums
  import Node = RaftNode
  import FollowerLog

  // ---------- NextIndex stays within the log ----------

  ghost predicate NextOk(r: Raft) {
    forall p {:trigger r.nextIndex[p]} :: p in r.nextIndex ==> 1 <= r.nextIndex[p] <= |r.logs| + 1
  }

  lemma {:induction false} ContactAllNext(r: Raft, peers: seq<string>)
    requires Indexed(r.logs) && r.logs != [] && NextOk(r)
    ensures NextOk(ContactAll(r, peers)) && ContactAll(r, peers).logs == r.logs
    ensures forall p :: NextFor(ContactAll(r, peers), p) == NextFor(r, p)
    ensures ContactAll(r, peers).currentTerm == r.currentTerm && ContactAll(r, peers).commitIndex == r.commitIndex
  {
    if peers != [] {
      ContactAllNext(r, peers[..|peers| - 1]);
    }
  }

  lemma {:induction false} HandleAllNext(r: Raft, arrivals: seq<Arrival>)
    requires NextOk(r)
    ensures NextOk(HandleAll(r, |r.logs|, arrivals)) && HandleAll(r, |r.logs|, arrivals).logs == r.logs
  {
    if arrivals != [] {
      HandleAllNext(r, arrivals[..|arrivals| - 1]);
    }
  }

  lemma WriteNext(json: JsonDecoder, s: Server, op: Op, arrivals: seq<Arrival>)
    requires Sound(s) && s.master && NextOk(s.raft)
    ensures NextOk(Rounded(s, op, arrivals).raft) && NextOk(Write(json, s, op, arrivals).0.raft)
    ensures Write(json, s, op, arrivals).0.raft.nextIndex == Rounded(s, op, arrivals).raft.nextIndex
  {
    var r := s.raft.(logs := s.raft.logs + [NewEntry(s, op)]);
    RoundedFrame(s, op, arrivals);
    ContactAllNext(r, r.peers);
    HandleAllNext(ContactAll(r, r.peers), arrivals);
    WriteUnfolds(json, s, op, arrivals);
    CommitResult(json, Rounded(s, op, arrivals));
  }

  /** NextIndex stays within the log in every life, restarts included. */
  lemma {:induction false} LifeNext(json: JsonDecoder, s: Server, events: seq<Event>)
    requires Sound(s) && NextOk(s.raft)
    ensures NextOk(LiveAll(json, s, events).raft)
    decreases |events|
  {
    if events != [] {
      var e := events[0];
      LiveSound(json, s, e);
      if e.Restarted? {
        RestartKeepsLog(json, s, e.master);
      } else if e.call.Update? && s.master {
        WriteNext(json, s, e.call.op, e.call.arrivals);
      }
      LifeNext(json, Live(json, s, e), events[1..]);
    }
  }

  // ---------- What is sent ----------

  /** The request for a peer whose next index is `next`: the entries from there on,
      which the receiver will number as they are numbered here. */
  ghost predicate ShipsFrom(r: Raft, next: int, req: AppendRequest) {
    && 1 <= next <= |r.logs|
    && req.term == r.currentTerm && req.leaderCommit == r.commitIndex
    && req.prevLogIndex == next - 1
    && req.prevLogTerm == (if next == 1 then 0 else r.logs[next - 2].term)
    && req.entries == Commands(r.logs[next - 1..])
    && (forall pos :: next - 1 <= pos < |r.logs| ==> r.logs[pos].index == req.prevLogIndex + 1 + (pos - (next - 1)))
  }

  lemma RequestShips(r: Raft, peer: string)
    requires Indexed(r.logs) && r.logs != [] && NextOk(r) && NextFor(r, peer) <= |r.logs|
    ensures ShipsFrom(r, NextFor(r, peer), RequestTo(r, peer, |r.logs|))
  {
  }

  lemma {:induction false} ContactedRequest(r: Raft, peers: seq<string>, peer: string)
    requires Indexed(r.logs) && r.logs != [] && NextOk(r)
    ensures RequestTo(ContactAll(r, peers), peer, |r.logs|) == RequestTo(r, peer, |r.logs|)
  {
    ContactAllNext(r, peers);
  }

  lemma {:induction false} SendsCounted(r: Raft, newIndex: int, steps: seq<RoundStep>)
    ensures |RoundRequests(r, newIndex, steps)| == |Sends(steps)|
  {
    if steps != [] {
      SendsCounted(r, newIndex, steps[..|steps| - 1]);
    }
  }

  ghost predicate Distinct(s: seq<string>) {
    forall i, j :: 0 <= i < j < |s| ==> s[i] != s[j]
  }

  lemma {:induction false} DistinctFront(steps: seq<RoundStep>)
    requires steps != [] && Distinct(Sends(steps))
    ensures var n := |steps| - 1;
            && Distinct(Sends(steps[..n])) && Sends(steps[..n]) <= Sends(steps)
            && (steps[n].Sent? ==> steps[n].peer !in Sends(steps[..n]))
  {
    var n := |steps| - 1;
    var front, sends := Sends(steps[..n]), Sends(steps);
    assert forall j :: 0 <= j < |front| ==> front[j] == sends[j];
    if steps[n].Sent? {
      assert sends[|front|] == steps[n].peer;
    }
  }

  /** A round's i-th request is what that peer would be sent if it were contacted alone,
      but for the term, which is the leader's at that moment. */
  lemma {:induction false} RoundRequestIs(r: Raft, steps: seq<RoundStep>, i: nat)
    requires Indexed(r.logs) && r.logs != [] && NextOk(r)
    requires Ordered(steps) && Distinct(Sends(steps)) && i < |Sends(steps)|
    ensures |RoundRequests(r, |r.logs|, steps)| == |Sends(steps)|
    ensures var req := RoundRequests(r, |r.logs|, steps)[i];
            req.term >= r.currentTerm && req.(term := r.currentTerm) == RequestTo(r, Sends(steps)[i], |r.logs|)
    decreases |steps|
  {
    var n := |steps| - 1;
    var front := steps[..n];
    SendsCounted(r, |r.logs|, front);
    DistinctFront(steps);
    if i < |Sends(front)| {
      RoundRequestIs(r, front, i);
    } else {
      RequestAmid(r, |r.logs|, front, steps[n].peer);
      ContactedRequest(r, Sends(front), steps[n].peer);
    }
  }

  /** In every life of the leader, however the round of the next write interleaves, each
      peer is sent exactly the log from its next index through the new entry, at least the
      new entry, with the term stored before it; only the request's own term may be higher
      than the one the round began with. */
  lemma {:induction false} SuffixIsExact(json: JsonDecoder, peers: seq<string>, master: bool, events: seq<Event>,
        op: Op, steps: seq<RoundStep>, i: nat)
    requires Ordered(steps) && Distinct(Sends(steps)) && i < |Sends(steps)|
    ensures var s := LiveAll(json, FreshLeader(peers, master), events);
            var r := s.raft.(logs := s.raft.logs + [NewEntry(s, op)]);
            var requests := RoundRequests(r, |r.logs|, steps);
            && |requests| == |Sends(steps)|
            && ShipsFrom(r, NextFor(r, Sends(steps)[i]), requests[i].(term := r.currentTerm))
            && requests[i].term >= r.currentTerm
            && requests[i].entries[|requests[i].entries| - 1] == Print(op)
  {
    var s := LiveAll(json, FreshLeader(peers, master), events);
    LifeNext(json, FreshLeader(peers, master), events);
    var r := s.raft.(logs := s.raft.logs + [NewEntry(s, op)]);
    RoundRequestIs(r, steps, i);
    RequestShips(r, Sends(steps)[i]);
  }

  /** And no request carries a commit index that reaches the entries' end: a leader
      commits an entry only after the round that ships it. */
  lemma {:induction false} ShipsBehind(json: JsonDecoder, peers: seq<string>, master: bool, events: seq<Event>,
        op: Op, peer: string)
    ensures var s := LiveAll(json, FreshLeader(peers, master), events);
            var r := s.raft.(logs := s.raft.logs + [NewEntry(s, op)]);
            var req := RequestTo(r, peer, |r.logs|);
            0 <= req.leaderCommit < |r.logs| == req.prevLogIndex + |req.entries|
  {
    var s := LiveAll(json, FreshLeader(peers, master), events);
    LifeNext(json, FreshLeader(peers, master), events);
    LifeCommits(json, FreshLeader(peers, master), events);
    RequestShips(s.raft.(logs := s.raft.logs + [NewEntry(s, op)]), peer);
  }

  // ---------- Moving on ----------

  /** A peer answers a round at most once; this is where. */
  ghost predicate AnswersAt(arrivals: seq<Arrival>, peer: string, j: nat) {
    j < |arrivals| && forall i :: 0 <= i < |arrivals| ==> (arrivals[i].peer == peer <==> i == j)
  }

  /** A peer that answers success, whatever other peers answer before or after it, is
      recorded to hold the new entry and will next be sent what follows it. */
  lemma {:induction false} SuccessAdvances(r: Raft, newIndex: int, arrivals: seq<Arrival>, peer: string, j: nat)
    requires AnswersAt(arrivals, peer, j) && arrivals[j].reply.success
    ensures var r' := HandleAll(r, newIndex, arrivals);
            && peer in r'.nextIndex && r'.nextIndex[peer] == newIndex + 1
            && peer in r'.matchIndex && r'.matchIndex[peer] == newIndex
  {
    var n := |arrivals| - 1;
    if j < n {
      SuccessAdvances(r, newIndex, arrivals[..n], peer, j);
    }
  }

  /** After any life, a peer that answered success to one write is sent the next one alone,
      after the entry it answered for. */
  lemma {:induction false} NextIsAlone(json: JsonDecoder, peers: seq<string>, master: bool, events: seq<Event>,
        op: Op, arrivals: seq<Arrival>, peer: string, j: nat, next: Op)
    requires peer in peers && AnswersAt(arrivals, peer, j) && arrivals[j].reply.success
    requires LiveAll(json, FreshLeader(peers, master), events).master
    ensures var s := LiveAll(json, FreshLeader(peers, master), events);
            var s' := Write(json, s, op, arrivals).0;
            var r := s'.raft.(logs := s'.raft.logs + [NewEntry(s', next)]);
            var req := RequestTo(r, peer, |r.logs|);
            && req.prevLogIndex == |s.raft.logs| + 1 && req.prevLogTerm == s.raft.currentTerm
            && req.entries == [Print(next)]
  {
    var s := LiveAll(json, FreshLeader(peers, master), events);
    LifeNext(json, FreshLeader(peers, master), events);
    LifePeers(json, FreshLeader(peers, master), events);
    WriteNext(json, s, op, arrivals);
    WriteResult(json, s, op, arrivals);
    var r0 := s.raft.(logs := s.raft.logs + [NewEntry(s, op)]);
    SuccessAdvances(ContactAll(r0, r0.peers), |r0.logs|, arrivals, peer, j);
    var s' := Write(json, s, op, arrivals).0;
    RequestShips(s'.raft.(logs := s'.raft.logs + [NewEntry(s', next)]), peer);
  }

  /** A peer the leader has no record of is sent the newest entry alone, whatever it holds. */
  lemma {:induction false} FirstContactIsAlone(json: JsonDecoder, peers: seq<string>, master: bool,
        events: seq<Event>, op: Op, peer: string)
    requires peer !in LiveAll(json, FreshLeader(peers, master), events).raft.nextIndex
    ensures var s := LiveAll(json, FreshLeader(peers, master), events);
            var r := s.raft.(logs := s.raft.logs + [NewEntry(s, op)]);
            var req := RequestTo(r, peer, |r.logs|);
            req.prevLogIndex == |s.raft.logs| && req.entries == [Print(op)]
  {
    var s := LiveAll(json, FreshLeader(peers, master), events);
    LifeNext(json, FreshLeader(peers, master), events);
    RequestShips(s.raft.(logs := s.raft.logs + [NewEntry(s, op)]), peer);
  }

  ghost predicate RefusesAbove(a: Arrival, term: int) { !a.reply.success && a.reply.term > term }

  /** A round raises the leader's term exactly if some refusal carries a higher one, and
      then to the highest of them, ending its leadership and its vote; otherwise term, vote
      and leadership stay. */
  lemma {:induction false} RoundTerm(r: Raft, newIndex: int, arrivals: seq<Arrival>)
    ensures var r' := HandleAll(r, newIndex, arrivals);
            && (forall j :: 0 <= j < |arrivals| ==> !RefusesAbove(arrivals[j], r'.currentTerm))
            && (if exists j :: 0 <= j < |arrivals| && RefusesAbove(arrivals[j], r.currentTerm) then
                  && !r'.isMaster && r'.votedFor == -1
                  && exists j :: 0 <= j < |arrivals| && RefusesAbove(arrivals[j], r.currentTerm) &&
                       arrivals[j].reply.term == r'.currentTerm
                else r'.currentTerm == r.currentTerm && r'.votedFor == r.votedFor && r'.isMaster == r.isMaster)
  {
    if arrivals != [] {
      var n := |arrivals| - 1;
      RoundTerm(r, newIndex, arrivals[..n]);
      HandleAllFrame(r, newIndex, arrivals[..n]);
      assert forall j :: 0 <= j < n ==> arrivals[..n][j] == arrivals[j];
    }
  }

  // ---------- Backing off ----------

  /** With the leader's term unchanged by the round, a refusal that does not carry a
      higher term takes NextIndex back by one, down to 1. */
  lemma {:induction false} RefusalBacksOff(r: Raft, newIndex: int, arrivals: seq<Arrival>, peer: string, j: nat)
    requires peer in r.nextIndex && AnswersAt(arrivals, peer, j) && !arrivals[j].reply.success
    requires arrivals[j].reply.term <= r.currentTerm
    ensures var r' := HandleAll(r, newIndex, arrivals);
            && peer in r'.nextIndex && r'.nextIndex[peer] == Max(1, r.nextIndex[peer] - 1)
            && (peer in r'.matchIndex <==> peer in r.matchIndex)
            && (peer in r.matchIndex ==> r'.matchIndex[peer] == r.matchIndex[peer])
  {
    var n := |arrivals| - 1;
    HandleAllFrame(r, newIndex, arrivals[..n]);
    if j == n {
      OthersLeaveNext(r, newIndex, arrivals[..n], peer);
    } else {
      RefusalBacksOff(r, newIndex, arrivals[..n], peer, j);
    }
  }

  /** What other peers answer changes nothing that is recorded of a peer. */
  lemma {:induction false} OthersLeaveNext(r: Raft, newIndex: int, arrivals: seq<Arrival>, peer: string)
    requires forall i :: 0 <= i < |arrivals| ==> arrivals[i].peer != peer
    ensures var r' := HandleAll(r, newIndex, arrivals);
            && (peer in r'.nextIndex <==> peer in r.nextIndex)
            && (peer in r.nextIndex ==> r'.nextIndex[peer] == r.nextIndex[peer])
            && (peer in r'.matchIndex <==> peer in r.matchIndex)
            && (peer in r.matchIndex ==> r'.matchIndex[peer] == r.matchIndex[peer])
  {
    if arrivals != [] {
      OthersLeaveNext(r, newIndex, arrivals[..|arrivals| - 1], peer);
    }
  }

  /** A refusal either carries a term above the request's, or is about a previous entry. */
  lemma WhyRefused(decode: Node.EntryDecoder, n: Node.Node, req: AppendRequest)
    requires Wellformed(req) && !Node.Append(decode, n, req).1.success
    ensures Node.Append(decode, n, req).1.term > req.term || req.prevLogIndex > 0
  {
  }

  /** One write whose round the peer, whatever its state, refuses, the leader's term surviving the round. */
  datatype Refusal = Refusal(op: Op, arrivals: seq<Arrival>, j: nat, follower: Node.Node)

  ghost predicate Refused(decode: Node.EntryDecoder, s: Server, peer: string, e: Refusal) {
    var r := s.raft.(logs := s.raft.logs + [NewEntry(s, e.op)]);
    var req := RequestTo(r, peer, |r.logs|);
    && AnswersAt(e.arrivals, peer, e.j)
    && Wellformed(req) && e.arrivals[e.j].reply == Node.Append(decode, e.follower, req).1
    && !e.arrivals[e.j].reply.success
    && Rounded(s, e.op, e.arrivals).raft.currentTerm == s.raft.currentTerm
  }

  /** How many more refusals the peer has left. */
  function Patience(s: Server, peer: string): int {
    if peer in s.raft.nextIndex then s.raft.nextIndex[peer] - 1 else |s.raft.logs|
  }

  lemma {:induction false} HigherTermWins(r: Raft, newIndex: int, arrivals: seq<Arrival>, j: nat)
    requires j < |arrivals| && !arrivals[j].reply.success
    ensures HandleAll(r, newIndex, arrivals).currentTerm >= arrivals[j].reply.term
  {
    var n := |arrivals| - 1;
    if j < n {
      HigherTermWins(r, newIndex, arrivals[..n], j);
    }
  }

  lemma RefusalCosts(decode: Node.EntryDecoder, json: JsonDecoder, s: Server, peer: string, e: Refusal)
    requires Sound(s) && s.master && NextOk(s.raft) && peer in s.raft.peers && Refused(decode, s, peer, e)
    ensures var s' := Write(json, s, e.op, e.arrivals).0;
            && Sound(s') && s'.master && NextOk(s'.raft) && s'.raft.peers == s.raft.peers
            && Patience(s', peer) == Patience(s, peer) - 1 >= 0
  {
    WriteNext(json, s, e.op, e.arrivals);
    WriteResult(json, s, e.op, e.arrivals);
    var r := s.raft.(logs := s.raft.logs + [NewEntry(s, e.op)]);
    ContactAllNext(r, r.peers);
    ContactAllFrame(r, r.peers);
    var r1 := ContactAll(r, r.peers);
    HigherTermWins(r1, |r.logs|, e.arrivals, e.j);
    WhyRefused(decode, e.follower, RequestTo(r, peer, |r.logs|));
    RefusalBacksOff(r1, |r.logs|, e.arrivals, peer, e.j);
  }

  ghost predicate AllRefused(decode: Node.EntryDecoder, json: JsonDecoder, s: Server, peer: string,
        rounds: seq<Refusal>)
    requires Sound(s)
    decreases |rounds|
  {
    rounds == [] ||
    (Refused(decode, s, peer, rounds[0]) &&
     (ServeSound(json, s, Update(rounds[0].op, rounds[0].arrivals));
      AllRefused(decode, json, Write(json, s, rounds[0].op, rounds[0].arrivals).0, peer, rounds[1..])))
  }

  lemma {:induction false} RefusalsBounded(decode: Node.EntryDecoder, json: JsonDecoder, s: Server, peer: string,
        rounds: seq<Refusal>)
    requires Sound(s) && s.master && NextOk(s.raft) && peer in s.raft.peers && AllRefused(decode, json, s, peer, rounds)
    ensures |rounds| <= Patience(s, peer)
    decreases |rounds|
  {
    if rounds != [] {
      RefusalCosts(decode, json, s, peer, rounds[0]);
      RefusalsBounded(decode, json, Write(json, s, rounds[0].op, rounds[0].arrivals).0, peer, rounds[1..]);
    }
  }

  /** Back-off terminates: after any life of the leader, with its term unchanged a peer
      can refuse at most NextIndex-1 rounds in a row, even if its own state is
      different every time; a peer never contacted, as many as the log is long. */
  lemma {:induction false} BackOffTerminates(decode: Node.EntryDecoder, json: JsonDecoder, peers: seq<string>,
        master: bool, events: seq<Event>, peer: string, rounds: seq<Refusal>)
    requires peer in peers
    requires var s := LiveAll(json, FreshLeader(peers, master), events);
             s.master && AllRefused(decode, json, s, peer, rounds)
    ensures |rounds| <= Patience(LiveAll(json, FreshLeader(peers, master), events), peer)
  {
    LifeNext(json, FreshLeader(peers, master), events);
    LifePeers(json, FreshLeader(peers, master), events);
    RefusalsBounded(decode, json, LiveAll(json, FreshLeader(peers, master), events), peer, rounds);
  }

  /** A peer backed off to 1, and not of a higher term, takes the request with the
      leader's whole log and ends with the leader's term in each of its positions; it
      holds the leader's entries there, number and command included, if and only if
      those of its entries that survive were the right ones. */
  lemma BackedOffCatchesUp(decode: Node.EntryDecoder, r: Raft, peer: string, n: Node.Node)
    requires Indexed(r.logs) && r.logs != [] && NextOk(r) && NextFor(r, peer) == 1 && n.currentTerm <= r.currentTerm
    ensures var req := RequestTo(r, peer, |r.logs|);
            && req.prevLogIndex == 0 && req.entries == Commands(r.logs)
            && (var (n', reply) := Node.Append(decode, n, req);
                && reply.success && |n'.log| >= |r.logs|
                && (forall i :: 0 <= i < |r.logs| ==> n'.log[i].term == r.currentTerm)
                && ((forall i :: 0 <= i < |r.logs| ==> FollowerLog.Holds(decode, n'.log, req, i)) <==>
                    forall i :: 0 <= i < |r.logs| ==> FollowerLog.RightAt(decode, n.log, req, i)))
  {
    RequestShips(r, peer);
    var req := RequestTo(r, peer, |r.logs|);
    assert r.logs[0..] == r.logs;
    FollowerLog.AcceptedWhen(decode, n, req);
    FollowerLog.FullRequest(decode, n, req);
    FollowerLog.StoredIff(decode, n, req);
  }

  /** What the follower rebuilds from the shipped strings: the leader's entries from
      the next index on, same numbers and commands, the term restamped with the
      leader's current one, where the decoder leaves the commands as they are. */
  lemma ShippedRebuild(decode: Node.EntryDecoder, r: Raft, peer: string, i: nat)
    requires Indexed(r.logs) && r.logs != [] && NextOk(r) && NextFor(r, peer) <= |r.logs|
    requires i < |r.logs| - (NextFor(r, peer) - 1)
    ensures var e := r.logs[NextFor(r, peer) - 1 + i];
            var added := Node.NewEntries(decode, RequestTo(r, peer, |r.logs|));
            && |added| == |r.logs| - (NextFor(r, peer) - 1)
            && (added[i] == e.(term := r.currentTerm) <==> Node.Stored(decode, e.command) == e.command)
  {
    RequestShips(r, peer);
  }

  // ---------- What an acknowledgement stands for ----------

  function Ackers(arrivals: seq<Arrival>): set<string> {
    set i | 0 <= i < |arrivals| && arrivals[i].reply.success :: arrivals[i].peer
  }

  lemma AckersSnoc(arrivals: seq<Arrival>)
    requires arrivals != []
    ensures var n := |arrivals| - 1;
            Ackers(arrivals) == Ackers(arrivals[..n]) + if arrivals[n].reply.success then {arrivals[n].peer} else {}
  {
  }

  lemma {:induction false} AckersCounted(arrivals: seq<Arrival>)
    requires forall i, j :: 0 <= i < j < |arrivals| ==> arrivals[i].peer != arrivals[j].peer
    ensures |Ackers(arrivals)| == Successes(arrivals)
  {
    if arrivals != [] {
      var n := |arrivals| - 1;
      AckersCounted(arrivals[..n]);
      AckersSnoc(arrivals);
      assert arrivals[n].peer !in Ackers(arrivals[..n]);
    }
  }

  /** When every peer answers at most once, a round counts as replicated if and only
      if the leader and the distinct peers that answered success make up the
      acknowledgement threshold. */
  lemma AcknowledgedIff(peers: seq<string>, arrivals: seq<Arrival>)
    requires forall i, j :: 0 <= i < j < |arrivals| ==> arrivals[i].peer != arrivals[j].peer
    ensures Acknowledged(peers, arrivals) <==> 1 + |Ackers(arrivals)| >= AckThreshold(|peers|)
    ensures Acknowledged(peers, arrivals) <==> 2 * (1 + |Ackers(arrivals)|) > |peers|
  {
    AckersCounted(arrivals);
  }

  /** The write after one that brought a peer level: the leader ships the new entry
      alone, and the peer answers success without storing it. */
  lemma NextWriteIsLost(decode: Node.EntryDecoder, s: Server, op: Op, peer: string, n: Node.Node)
    requires Sound(s) && s.raft.logs != [] && NextOk(s.raft)
    requires peer in s.raft.nextIndex && s.raft.nextIndex[peer] == |s.raft.logs| + 1
    requires |n.log| == |s.raft.logs| && n.currentTerm <= s.raft.currentTerm
    requires n.log[|n.log| - 1].term == s.raft.logs[|n.log| - 1].term
    ensures var r := s.raft.(logs := s.raft.logs + [NewEntry(s, op)]);
            var req := RequestTo(r, peer, |r.logs|);
            && req.prevLogIndex >= 0 && req.entries == [Print(op)]
            && Node.Append(decode, n, req).1.success && Node.Append(decode, n, req).0.log == n.log
  {
  }

  // ---------- When an acknowledgement means a copy ----------

  /** The requests of the round, by peer: built by the leader at r, each with the term it
      had at that moment. */
  ghost predicate SentBy(r: Raft, requests: string -> AppendRequest) {
    forall p :: requests(p).(term := r.currentTerm) == RequestTo(r, p, |r.logs|)
  }

  /** The answers of the round: at most one a peer, each the handler's on the peer's state. */
  ghost predicate AnsweredBy(decode: Node.EntryDecoder, followers: string -> Node.Node,
        requests: string -> AppendRequest, arrivals: seq<Arrival>) {
    && (forall i, j :: 0 <= i < j < |arrivals| ==> arrivals[i].peer != arrivals[j].peer)
    && forall i :: 0 <= i < |arrivals| ==> AnswerOf(decode, followers, requests, arrivals[i])
  }

  ghost predicate AnswerOf(decode: Node.EntryDecoder, followers: string -> Node.Node,
        requests: string -> AppendRequest, a: Arrival) {
    Wellformed(requests(a.peer)) && a.reply == Node.Append(decode, followers(a.peer), requests(a.peer)).1
  }

  /** The log holds the leader's newest entry in its place, restamped with the request's term. */
  ghost predicate HasNewest(decode: Node.EntryDecoder, r: Raft, term: int, log: seq<LogEntry>)
    requires r.logs != []
  {
    var n := |r.logs|;
    |log| >= n && log[n - 1] == LogEntry(term, n, Node.Stored(decode, r.logs[n - 1].command))
  }

  /** What the peer's state must be for the newest entry to be stored: the offset fits and,
      if something survives in that entry's place, it was the right entry. */
  ghost predicate Takes(decode: Node.EntryDecoder, n: Node.Node, req: AppendRequest) {
    && req.entries != [] && 0 <= req.prevLogIndex <= |n.log|
    && FollowerLog.OffsetFits(n.log, req)
    && FollowerLog.RightAt(decode, n.log, req, |req.entries| - 1)
  }

  ghost predicate Stores(decode: Node.EntryDecoder, r: Raft, n: Node.Node, req: AppendRequest)
    requires r.logs != []
  {
    Wellformed(req) && HasNewest(decode, r, req.term, Node.Append(decode, n, req).0.log)
  }

  /** Every request of the round ends with the newest entry, in that entry's place. */
  lemma EndsWithNewest(r: Raft, peer: string, req: AppendRequest)
    requires Indexed(r.logs) && r.logs != [] && NextOk(r) && NextFor(r, peer) <= |r.logs|
    requires req.(term := r.currentTerm) == RequestTo(r, peer, |r.logs|)
    ensures req.entries != [] && req.prevLogIndex >= 0 && req.prevLogIndex + |req.entries| == |r.logs|
    ensures req.entries[|req.entries| - 1] == r.logs[|r.logs| - 1].command
  {
    RequestShips(r, peer);
  }

  lemma HoldsIsNewest(decode: Node.EntryDecoder, r: Raft, req: AppendRequest, log: seq<LogEntry>)
    requires r.logs != [] && req.entries != [] && req.prevLogIndex + |req.entries| == |r.logs|
    requires req.entries[|req.entries| - 1] == r.logs[|r.logs| - 1].command
    ensures FollowerLog.Holds(decode, log, req, |req.entries| - 1) <==> HasNewest(decode, r, req.term, log)
  {
    var n := |r.logs|;
    if |log| >= n {
      var e := log[n - 1];
      assert e == LogEntry(e.term, e.index, e.command);
    }
  }

  lemma NewestIff(decode: Node.EntryDecoder, r: Raft, n: Node.Node, req: AppendRequest)
    requires r.logs != [] && req.entries != [] && req.prevLogIndex + |req.entries| == |r.logs|
    requires req.entries[|req.entries| - 1] == r.logs[|r.logs| - 1].command
    requires Wellformed(req) && Node.Append(decode, n, req).1.success
    ensures HasNewest(decode, r, req.term, Node.Append(decode, n, req).0.log) <==> Takes(decode, n, req)
  {
    FollowerLog.NewestStoredIff(decode, n, req);
    HoldsIsNewest(decode, r, req, Node.Append(decode, n, req).0.log);
  }

  lemma StoresIff(decode: Node.EntryDecoder, r: Raft, peer: string, n: Node.Node, req: AppendRequest)
    requires Indexed(r.logs) && r.logs != [] && NextOk(r) && NextFor(r, peer) <= |r.logs|
    requires req.(term := r.currentTerm) == RequestTo(r, peer, |r.logs|)
    requires Wellformed(req) && Node.Append(decode, n, req).1.success
    ensures Stores(decode, r, n, req) <==> Takes(decode, n, req)
  {
    EndsWithNewest(r, peer, req);
    NewestIff(decode, r, n, req);
  }

  ghost function Holders(decode: Node.EntryDecoder, r: Raft, followers: string -> Node.Node,
        requests: string -> AppendRequest, arrivals: seq<Arrival>): set<string>
    requires r.logs != []
  {
    set p | p in Ackers(arrivals) && Stores(decode, r, followers(p), requests(p))
  }

  ghost function Takers(decode: Node.EntryDecoder, followers: string -> Node.Node, requests: string -> AppendRequest,
        arrivals: seq<Arrival>): set<string>
  {
    set p | p in Ackers(arrivals) && Takes(decode, followers(p), requests(p))
  }

  lemma HoldersAreTakers(decode: Node.EntryDecoder, r: Raft, followers: string -> Node.Node,
        requests: string -> AppendRequest, arrivals: seq<Arrival>)
    requires Indexed(r.logs) && r.logs != [] && NextOk(r) && forall p :: NextFor(r, p) <= |r.logs|
    requires SentBy(r, requests) && AnsweredBy(decode, followers, requests, arrivals)
    ensures Holders(decode, r, followers, requests, arrivals) == Takers(decode, followers, requests, arrivals)
  {
    forall p | p in Ackers(arrivals)
      ensures Stores(decode, r, followers(p), requests(p)) <==> Takes(decode, followers(p), requests(p))
    {
      var i :| 0 <= i < |arrivals| && arrivals[i].reply.success && arrivals[i].peer == p;
      assert AnswerOf(decode, followers, requests, arrivals[i]);
      StoresIff(decode, r, p, followers(p), requests(p));
    }
  }

  /** In the round of the next write after any life of the leader: the peers that answered
      success and hold the new entry are those whose log met the offset and survivor
      conditions.  So the write is with an acknowledgement quorum, the leader counted, if
      and only if it was acknowledged and enough peers met them. */
  lemma {:induction false} ReplicatedIff(decode: Node.EntryDecoder, json: JsonDecoder, peers: seq<string>,
        master: bool, events: seq<Event>, op: Op, followers: string -> Node.Node, requests: string -> AppendRequest,
        arrivals: seq<Arrival>)
    requires var s := LiveAll(json, FreshLeader(peers, master), events);
             SentBy(s.raft.(logs := s.raft.logs + [NewEntry(s, op)]), requests)
    requires AnsweredBy(decode, followers, requests, arrivals)
    ensures var s := LiveAll(json, FreshLeader(peers, master), events);
            var r := s.raft.(logs := s.raft.logs + [NewEntry(s, op)]);
            var holders := Holders(decode, r, followers, requests, arrivals);
            var takers := Takers(decode, followers, requests, arrivals);
            && holders == takers
            && (1 + |holders| >= AckThreshold(|peers|) <==>
                Acknowledged(peers, arrivals) && 1 + |takers| >= AckThreshold(|peers|))
  {
    var s := LiveAll(json, FreshLeader(peers, master), events);
    LifeNext(json, FreshLeader(peers, master), events);
    var r := s.raft.(logs := s.raft.logs + [NewEntry(s, op)]);
    HoldersAreTakers(decode, r, followers, requests, arrivals);
    AcknowledgedIff(peers, arrivals);
    SubsetSize(Takers(decode, followers, requests, arrivals), Ackers(arrivals));
  }

  /** Where every peer that answered success was level with what it was shipped after, the
      steady state, none of them holds the new entry, however many answered. */
  lemma {:induction false} LevelPeersHoldNothing(decode: Node.EntryDecoder, r: Raft, followers: string -> Node.Node,
        requests: string -> AppendRequest, arrivals: seq<Arrival>)
    requires Indexed(r.logs) && r.logs != [] && NextOk(r) && forall p :: NextFor(r, p) <= |r.logs|
    requires SentBy(r, requests) && AnsweredBy(decode, followers, requests, arrivals)
    requires forall p :: p in Ackers(arrivals) ==> |followers(p).log| == requests(p).prevLogIndex > 0
    ensures Holders(decode, r, followers, requests, arrivals) == {}
  {
    HoldersAreTakers(decode, r, followers, requests, arrivals);
    forall p | p in Ackers(arrivals) ensures !Takes(decode, followers(p), requests(p)) {
      assert requests(p).entries != [] ==> !FollowerLog.OffsetFits(followers(p).log, requests(p));
    }
  }
}
