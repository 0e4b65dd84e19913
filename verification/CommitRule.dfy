/** UpdateCommitIndex counts peers whose MatchIndex equals N, not those at or past
    it, and reads the term one position late.  In every life of the leader it is
    conservative all the same, in the count and in the term. */
module CommitRule {
  import opened RaftTypes
  import opened CommandCodec
  import opened LeaderState
  import opened Replication
  import opened LeaderStore
  import opened Recovery
  import opened Quorums

  ghost predicate DistinctPeers(peers: seq<string>) {
    forall i, j :: 0 <= i < j < |peers| ==> peers[i] != peers[j]
  }

  /** MatchIndex records peers only, each at most once. */
  ghost predicate MatchesPeers(r: Raft) {
    DistinctPeers(r.peers) && r.matchIndex.Keys <= (set p | p in r.peers)
  }

  /** The peers at or past an index: what section 5.3 of the Raft paper counts. */
  function AtLeast(matchIndex: map<string, int>, index: int): set<string> {
    set p | p in matchIndex && matchIndex[p] >= index
  }

  /** A majority of the cluster, the leader included, holds the index. */
  ghost predicate HeldByMajority(r: Raft, n: int) {
    2 * (1 + |AtLeast(r.matchIndex, n)|) > |r.peers| + 1
  }

  lemma CommittableIsHeld(r: Raft, n: int)
    requires Committable(r, n)
    ensures HeldByMajority(r, n)
  {
    SubsetSize(ExactMatches(r.matchIndex, n), AtLeast(r.matchIndex, n));
  }

  /** Two indices cannot both be matched exactly by a majority. */
  lemma OneMajority(r: Raft, m: int, n: int)
    requires MatchesPeers(r)
    requires |ExactMatches(r.matchIndex, m)| >= Majority(r.peers) &&
        |ExactMatches(r.matchIndex, n)| >= Majority(r.peers)
    ensures m == n
  {
    var members := set p | p in r.peers;
    DistinctCount(r.peers);
    var a, b := ExactMatches(r.matchIndex, m), ExactMatches(r.matchIndex, n);
    Overlap(members, a, b);
    var p :| p in a * b;
  }

  lemma FewPeersNeverCommit(r: Raft, n: int)
    requires MatchesPeers(r) && |r.peers| <= 1
    ensures !Committable(r, n)
  {
    var members := set p | p in r.peers;
    DistinctCount(r.peers);
    SubsetSize(ExactMatches(r.matchIndex, n), members);
  }

  /** When every peer is level with the log the rule commits nothing: it never looks at the last entry. */
  lemma LevelPeersCommitNothing(r: Raft, n: int)
    requires forall p :: p in r.matchIndex ==> r.matchIndex[p] == |r.logs|
    ensures !Committable(r, n)
  {
  }

  // ---------- Over lives ----------

  ghost predicate FromPeers(peers: seq<string>, arrivals: seq<Arrival>) {
    forall i :: 0 <= i < |arrivals| ==> arrivals[i].peer in peers
  }

  ghost predicate EventsFromPeers(peers: seq<string>, events: seq<Event>) {
    forall i :: 0 <= i < |events| ==> EventFromPeers(peers, events[i])
  }

  ghost predicate EventFromPeers(peers: seq<string>, e: Event) {
    e.Called? && e.call.Update? ==> FromPeers(peers, e.call.arrivals)
  }

  ghost predicate KeysOk(r: Raft) {
    forall p :: p in r.matchIndex ==> p in r.peers
  }

  lemma {:induction false} ContactAllKeys(r: Raft, peers: seq<string>)
    requires KeysOk(r) && forall p :: p in peers ==> p in r.peers
    ensures KeysOk(ContactAll(r, peers)) && ContactAll(r, peers).peers == r.peers
  {
    if peers != [] {
      ContactAllKeys(r, peers[..|peers| - 1]);
    }
  }

  lemma {:induction false} HandleAllKeys(r: Raft, newIndex: int, arrivals: seq<Arrival>)
    requires KeysOk(r) && FromPeers(r.peers, arrivals)
    ensures KeysOk(HandleAll(r, newIndex, arrivals)) && HandleAll(r, newIndex, arrivals).peers == r.peers
  {
    if arrivals != [] {
      HandleAllKeys(r, newIndex, arrivals[..|arrivals| - 1]);
    }
  }

  lemma WriteKeys(json: JsonDecoder, s: Server, op: Op, arrivals: seq<Arrival>)
    requires Sound(s) && s.master && KeysOk(s.raft) && FromPeers(s.raft.peers, arrivals)
    ensures KeysOk(Write(json, s, op, arrivals).0.raft)
  {
    var r := s.raft.(logs := s.raft.logs + [NewEntry(s, op)]);
    ContactAllKeys(r, r.peers);
    HandleAllKeys(ContactAll(r, r.peers), |r.logs|, arrivals);
    RoundedFrame(s, op, arrivals);
    WriteUnfolds(json, s, op, arrivals);
  }

  lemma {:induction false} LifeKeys(json: JsonDecoder, s: Server, events: seq<Event>)
    requires Sound(s) && KeysOk(s.raft) && EventsFromPeers(s.raft.peers, events)
    ensures KeysOk(LiveAll(json, s, events).raft)
    decreases |events|
  {
    if events != [] {
      var e := events[0];
      assert EventFromPeers(s.raft.peers, e);
      LiveSound(json, s, e);
      LifePeers(json, s, [e]);
      if e.Restarted? {
        RestartKeepsLog(json, s, e.master);
      } else if e.call.Update? && s.master {
        WriteKeys(json, s, e.call.op, e.call.arrivals);
        WriteResult(json, s, e.call.op, e.call.arrivals);
      }
      LifeKeys(json, Live(json, s, e), events[1..]);
    }
  }

  // ---------- The term check ----------

  /** On a leader that has not stepped down, whatever a peer is recorded to match is an
      entry of the current term: MatchIndex receives only the index of an entry the
      leader has just appended. */
  ghost predicate MatchesCurrent(r: Raft) {
    r.isMaster ==> forall p {:trigger r.matchIndex[p]} :: p in r.matchIndex ==> OfCurrentTerm(r, r.matchIndex[p])
  }

  ghost predicate OfCurrentTerm(r: Raft, n: int) {
    n > 0 ==> n <= |r.logs| && r.logs[n - 1].term == r.currentTerm
  }

  lemma {:induction false} ContactAllCurrent(r: Raft, peers: seq<string>)
    requires MatchesCurrent(r)
    ensures MatchesCurrent(ContactAll(r, peers)) && ContactAll(r, peers).logs == r.logs
    ensures ContactAll(r, peers).currentTerm == r.currentTerm
  {
    if peers != [] {
      ContactAllCurrent(r, peers[..|peers| - 1]);
    }
  }

  /** A reply of a higher term raises the term and ends the leadership for good. */
  lemma {:induction false} HandleAllCurrent(r: Raft, arrivals: seq<Arrival>)
    requires MatchesCurrent(r) && r.logs != [] && r.logs[|r.logs| - 1].term == r.currentTerm
    ensures var r' := HandleAll(r, |r.logs|, arrivals);
            && MatchesCurrent(r') && r'.logs == r.logs
            && (r'.isMaster ==> r'.currentTerm == r.currentTerm)
  {
    if arrivals != [] {
      HandleAllCurrent(r, arrivals[..|arrivals| - 1]);
    }
  }

  lemma WriteCurrent(json: JsonDecoder, s: Server, op: Op, arrivals: seq<Arrival>)
    requires Sound(s) && s.master && MatchesCurrent(s.raft)
    ensures MatchesCurrent(Write(json, s, op, arrivals).0.raft)
  {
    var r := s.raft.(logs := s.raft.logs + [NewEntry(s, op)]);
    assert MatchesCurrent(r);
    ContactAllCurrent(r, r.peers);
    HandleAllCurrent(ContactAll(r, r.peers), arrivals);
    RoundedFrame(s, op, arrivals);
    WriteUnfolds(json, s, op, arrivals);
  }

  lemma {:induction false} LifeCurrent(json: JsonDecoder, s: Server, events: seq<Event>)
    requires Sound(s) && MatchesCurrent(s.raft)
    ensures MatchesCurrent(LiveAll(json, s, events).raft)
    decreases |events|
  {
    if events != [] {
      var e := events[0];
      LiveSound(json, s, e);
      if e.Restarted? {
        RestartKeepsLog(json, s, e.master);
      } else if e.call.Update? && s.master {
        WriteCurrent(json, s, e.call.op, e.call.arrivals);
      }
      LifeCurrent(json, Live(json, s, e), events[1..]);
    }
  }

  /** An index that an exact majority matches is matched by someone. */
  lemma CommittableIsMatched(r: Raft, n: int)
    requires Committable(r, n)
    ensures exists p :: p in r.matchIndex && r.matchIndex[p] == n
  {
    assert |ExactMatches(r.matchIndex, n)| >= 1;
    var p :| p in ExactMatches(r.matchIndex, n);
  }

  /** Section 5.4.2 holds in every life, replies and restarts as they come: where
      UpdateCommitIndex acts, an index it may commit holds an entry of the current term,
      although the term it looks at is the following entry's. */
  lemma {:induction false} TermRuleHolds(json: JsonDecoder, peers: seq<string>, master: bool, events: seq<Event>,
        n: int)
    ensures var r := LiveAll(json, FreshLeader(peers, master), events).raft;
            r.isMaster && Committable(r, n) ==> r.logs[n - 1].index == n && r.logs[n - 1].term == r.currentTerm
  {
    LifeCurrent(json, FreshLeader(peers, master), events);
    var r := LiveAll(json, FreshLeader(peers, master), events).raft;
    if r.isMaster && Committable(r, n) {
      CommittableIsMatched(r, n);
    }
  }

  /** A remark on states no life reaches: checking the following entry's term gives the
      verdict of section 5.4.2 if and only if no term boundary lies between the two. */
  lemma TermCheckAgreesIff(r: Raft, n: int)
    requires Committable(r, n)
    ensures r.logs[n - 1].term == r.currentTerm <==> r.logs[n - 1].term == r.logs[n].term
  {
  }

  /** In every life of the leader: an index the rule may commit is the only one with an
      exact majority, is held by a majority in the sense of the paper, is of the current
      term and is not the last. */
  lemma {:induction false} RuleIsConservative(json: JsonDecoder, peers: seq<string>, master: bool, events: seq<Event>,
        n: int)
    requires DistinctPeers(peers) && EventsFromPeers(peers, events)
    ensures var r := LiveAll(json, FreshLeader(peers, master), events).raft;
            Committable(r, n) ==>
              && HeldByMajority(r, n) && |r.peers| >= 2
              && (forall m :: |ExactMatches(r.matchIndex, m)| >= Majority(r.peers) ==> m == n)
              && n < |r.logs| && r.logs[n].index == n + 1 && r.logs[n].term == r.currentTerm
              && (r.isMaster ==> r.logs[n - 1].term == r.currentTerm)
  {
    LifeKeys(json, FreshLeader(peers, master), events);
    LifePeers(json, FreshLeader(peers, master), events);
    TermRuleHolds(json, peers, master, events, n);
    var r := LiveAll(json, FreshLeader(peers, master), events).raft;
    if Committable(r, n) {
      CommittableIsHeld(r, n);
      if |r.peers| <= 1 {
        FewPeersNeverCommit(r, n);
      }
      forall m | |ExactMatches(r.matchIndex, m)| >= Majority(r.peers) ensures m == n {
        OneMajority(r, m, n);
      }
    }
  }
}
