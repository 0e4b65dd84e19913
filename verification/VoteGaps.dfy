/** What the lock gaps and the unstamped BecomeLeaderEvent cost: terms that fall,
    and a leader nobody elected.  Also that the sections of the vote handler,
    run back to back, are the uninterrupted handler. */
module VoteGaps {
  import opened RaftTypes
  import opened RaftNode
  import opened VoteProtocol
  import opened VoteSafety

  lemma Twice<K, V>(m: map<K, V>, k: K, a: V, b: V)
    ensures m[k := a][k := b] == m[k := b]
    ensures k in m && m[k] == b ==> m[k := b] == m
  {
  }

  /** Let the vote handler of n finish undisturbed. */
  ghost function FinishVote(c: Cluster, n: int): Cluster
    requires Shape(c) && n in c.nodes
  {
    var c1 := if c.phases[n].Adopting? then DoAdopt(c, n) else c;
    var c2 := if c1.phases[n].Checking? then Evaluate(c1, n, c1.phases[n].req) else c1;
    if c2.phases[n].Granting? then DoGrant(c2, n) else c2
  }

  /** Delivering a vote request and finishing its handler without interruption is
      the handler `AnswerVote`, and the reply carries its verdict. */
  lemma SectionsMakeHandler(c: Cluster, k: RpcKey)
    requires Shape(c) && Enabled(c, Deliver(k))
    ensures var c' := FinishVote(DoDeliver(c, k), k.voter);
            var (node, reply) := AnswerVote(c.nodes[k.voter], VoteRequest(k.term, k.candidate, c.rpcs[k].last));
            && c'.nodes == c.nodes[k.voter := node]
            && c'.phases == c.phases
            && c'.rpcs == c.rpcs[k := Replied(reply.granted)]
            && c'.wins == c.wins && c'.counted == c.counted && c'.led == c.led
  {
    var req := VoteRequest(k.term, k.candidate, c.rpcs[k].last);
    if req.term > c.nodes[k.voter].currentTerm {
      HigherTermFinishes(c, k);
    } else if req.term == c.nodes[k.voter].currentTerm {
      EvaluateFinishes(c, k.voter, req);
    }
  }

  lemma HigherTermFinishes(c: Cluster, k: RpcKey)
    requires Shape(c) && Enabled(c, Deliver(k)) && k.term > c.nodes[k.voter].currentTerm
    ensures var c' := FinishVote(DoDeliver(c, k), k.voter);
            var adopted := AdoptTerm(c.nodes[k.voter], k.term);
            var granted := MayVote(adopted, VoteRequest(k.term, k.candidate, c.rpcs[k].last));
            && c'.nodes == c.nodes[k.voter := if granted then CastVote(adopted, k.candidate) else adopted]
            && c'.phases == c.phases && c'.rpcs == c.rpcs[k := Replied(granted)]
            && c'.wins == c.wins && c'.counted == c.counted && c'.led == c.led
  {
    var req := VoteRequest(k.term, k.candidate, c.rpcs[k].last);
    AdoptingFinishes(DoDeliver(c, k), k.voter, req);
    Twice(c.phases, k.voter, Adopting(req), Idle);
    Twice(c.rpcs, k, InHandler, Replied(MayVote(AdoptTerm(c.nodes[k.voter], k.term), req)));
  }

  lemma AdoptingFinishes(c: Cluster, n: int, req: VoteRequest)
    requires Shape(c) && n in c.nodes && c.phases[n] == Adopting(req)
    ensures var c' := FinishVote(c, n);
            var adopted := AdoptTerm(c.nodes[n], req.term);
            var granted := MayVote(adopted, req);
            && c'.nodes == c.nodes[n := if granted then CastVote(adopted, req.candidate) else adopted]
            && c'.phases == c.phases[n := Idle] && c'.rpcs == c.rpcs[KeyOf(n, req) := Replied(granted)]
            && c'.wins == c.wins && c'.counted == c.counted && c'.led == c.led
  {
    AdoptingGoesOn(c, n, req);
    var adopted := AdoptTerm(c.nodes[n], req.term);
    Twice(c.nodes, n, adopted, if MayVote(adopted, req) then CastVote(adopted, req.candidate) else adopted);
    Twice(c.phases, n, Checking(req), Idle);
    EvaluateFinishes(DoAdopt(c, n), n, req);
  }

  lemma AdoptingGoesOn(c: Cluster, n: int, req: VoteRequest)
    requires Shape(c) && n in c.nodes && c.phases[n] == Adopting(req)
    ensures var c1 := Evaluate(DoAdopt(c, n), n, req);
            FinishVote(c, n) == if c1.phases[n].Granting? then DoGrant(c1, n) else c1
  {
  }

  lemma EvaluateFinishes(c: Cluster, n: int, req: VoteRequest)
    requires Shape(c) && n in c.nodes
    ensures var c1 := Evaluate(c, n, req);
            var c' := if c1.phases[n].Granting? then DoGrant(c1, n) else c1;
            var granted := MayVote(c.nodes[n], req);
            && c'.nodes == c.nodes[n := if granted then CastVote(c.nodes[n], req.candidate) else c.nodes[n]]
            && c'.phases == c.phases[n := Idle]
            && c'.rpcs == c.rpcs[KeyOf(n, req) := Replied(granted)]
            && c'.wins == c.wins && c'.counted == c.counted && c'.led == c.led
  {
  }

  // ---------- Terms ----------

  /** AppendEntries and heartbeat replies reach a node only between its vote requests. */
  ghost predicate Uninterrupted(decode: EntryDecoder, c: Cluster, steps: seq<Step>)
    requires Legal(decode, c, steps)
    decreases |steps|
  {
    steps == [] ||
    ((steps[0].ReceiveAppend? || steps[0].ReceiveReply? ==> c.phases[steps[0].n].Idle?) &&
     Uninterrupted(decode, Do(decode, c, steps[0]), steps[1..]))
  }

  ghost predicate AdoptsUpward(c: Cluster)
    requires Shape(c)
  {
    forall n {:trigger c.phases[n]} :: n in c.nodes && c.phases[n].Adopting? ==>
        c.nodes[n].currentTerm < c.phases[n].req.term
  }

  /** No node's term falls. */
  ghost predicate Rises(c: Cluster, c': Cluster) {
    c'.nodes.Keys == c.nodes.Keys && forall n {:trigger c'.nodes[n]} :: n in c.nodes ==>
        c'.nodes[n].currentTerm >= c.nodes[n].currentTerm
  }

  lemma RisesAt(c: Cluster, c': Cluster, n: int)
    requires Touches(c, c', n)
    ensures Rises(c, c') <==> c'.nodes[n].currentTerm >= c.nodes[n].currentTerm
  {
  }

  lemma UpwardAt(c: Cluster, c': Cluster, n: int)
    requires Touches(c, c', n) && AdoptsUpward(c)
    requires c'.phases[n].Adopting? ==> c'.nodes[n].currentTerm < c'.phases[n].req.term
    ensures AdoptsUpward(c')
  {
  }

  lemma TimeoutRises(c: Cluster, n: int)
    requires Shape(c) && Enabled(c, Timeout(n))
    ensures Rises(c, DoTimeout(c, n)) && (AdoptsUpward(c) ==> AdoptsUpward(DoTimeout(c, n)))
  {
  }

  lemma MoveOnRises(c: Cluster, n: int, phase: Phase, k: RpcKey, rpc: Rpc)
    requires Shape(c) && n in c.nodes && (phase.Adopting? ==> c.nodes[n].currentTerm < phase.req.term)
    ensures var c' := MoveOn(c, n, phase, k, rpc); Rises(c, c') && (AdoptsUpward(c) ==> AdoptsUpward(c'))
  {
  }

  lemma EvaluateRises(c: Cluster, n: int, req: VoteRequest)
    requires Shape(c) && n in c.nodes
    ensures var c' := Evaluate(c, n, req); Rises(c, c') && (AdoptsUpward(c) ==> AdoptsUpward(c'))
  {
    MoveOnRises(c, n, Granting(req, LastOf(c.nodes[n].log)), KeyOf(n, req), InHandler);
    MoveOnRises(c, n, Idle, KeyOf(n, req), Replied(false));
  }

  lemma StaleRises(c: Cluster, k: RpcKey)
    requires Shape(c) && Enabled(c, Deliver(k)) && k.term < c.nodes[k.voter].currentTerm
    ensures Rises(c, DoDeliver(c, k)) && (AdoptsUpward(c) ==> AdoptsUpward(DoDeliver(c, k)))
  {
  }

  lemma DeliverRises(c: Cluster, k: RpcKey)
    requires Shape(c) && Enabled(c, Deliver(k))
    ensures Rises(c, DoDeliver(c, k)) && (AdoptsUpward(c) ==> AdoptsUpward(DoDeliver(c, k)))
  {
    var req := VoteRequest(k.term, k.candidate, c.rpcs[k].last);
    var term := c.nodes[k.voter].currentTerm;
    if k.term < term {
      StaleRises(c, k);
    } else if k.term > term {
      MoveOnRises(c, k.voter, Adopting(req), k, InHandler);
    } else {
      EvaluateRises(c, k.voter, req);
    }
  }

  lemma AdoptRisesIff(c: Cluster, n: int)
    requires Shape(c) && Enabled(c, Adopt(n))
    ensures Rises(c, DoAdopt(c, n)) <==> c.nodes[n].currentTerm <= c.phases[n].req.term
    ensures AdoptsUpward(c) ==> c.nodes[n].currentTerm <= c.phases[n].req.term && AdoptsUpward(DoAdopt(c, n))
  {
  }

  lemma GrantRises(c: Cluster, n: int)
    requires Shape(c) && Enabled(c, Grant(n))
    ensures Rises(c, DoGrant(c, n)) && (AdoptsUpward(c) ==> AdoptsUpward(DoGrant(c, n)))
  {
  }

  lemma CountRises(c: Cluster, k: RpcKey)
    requires Shape(c) && Enabled(c, Count(k))
    ensures Rises(c, DoCount(c, k)) && (AdoptsUpward(c) ==> AdoptsUpward(DoCount(c, k)))
  {
    RisesAt(c, DoCount(c, k), k.candidate);
    if AdoptsUpward(c) { UpwardAt(c, DoCount(c, k), k.candidate); }
  }

  lemma WinRises(c: Cluster, n: int)
    requires Shape(c) && Enabled(c, HandleWin(n))
    ensures Rises(c, DoHandleWin(c, n)) && (AdoptsUpward(c) ==> AdoptsUpward(DoHandleWin(c, n)))
  {
  }

  /** Calls from other goroutines raise a term or keep it; a handler about to adopt may not notice. */
  lemma CallRises(c: Cluster, n: int, node: Node)
    requires Shape(c) && n in c.nodes && Outside(c.nodes[n], node)
    ensures Rises(c, SetNode(c, n, node))
    ensures AdoptsUpward(c) && c.phases[n].Idle? ==> AdoptsUpward(SetNode(c, n, node))
  {
  }

  lemma OutsideStepRises(decode: EntryDecoder, c: Cluster, s: Step)
    requires Shape(c) && Enabled(c, s) && (s.Heartbeat? || s.ReceiveAppend? || s.ReceiveReply?)
    ensures Rises(c, Do(decode, c, s))
    ensures AdoptsUpward(c) && c.phases[s.n].Idle? ==> AdoptsUpward(Do(decode, c, s))
  {
    CallsAreOutside(decode, c.nodes[s.n], if s.ReceiveAppend? then s.append else NO_APPEND,
                    if s.ReceiveReply? then s.sentTerm else 0, if s.ReceiveReply? then s.term else 0);
    CallRises(c, s.n, Do(decode, c, s).nodes[s.n]);
  }

  /** The check the lock that adopts a higher term does not repeat. */
  ghost predicate RecheckedStep(c: Cluster, s: Step)
    requires Shape(c) && Enabled(c, s)
  {
    s.Adopt? ==> c.nodes[s.n].currentTerm <= c.phases[s.n].req.term
  }

  lemma StepRisesIff(decode: EntryDecoder, c: Cluster, s: Step)
    requires Shape(c) && Enabled(c, s)
    ensures Rises(c, Do(decode, c, s)) <==> RecheckedStep(c, s)
    ensures AdoptsUpward(c) && (s.ReceiveAppend? || s.ReceiveReply? ==> c.phases[s.n].Idle?) ==>
              RecheckedStep(c, s) && AdoptsUpward(Do(decode, c, s))
  {
    match s
    case Timeout(n) => TimeoutRises(c, n);
    case Deliver(k) => DeliverRises(c, k);
    case Adopt(n) => AdoptRisesIff(c, n);
    case Check(n) => EvaluateRises(c, n, c.phases[n].req);
    case Grant(n) => GrantRises(c, n);
    case Count(k) => CountRises(c, k);
    case HandleWin(n) => WinRises(c, n);
    case _ => OutsideStepRises(decode, c, s);
  }

  ghost predicate Rechecked(decode: EntryDecoder, c: Cluster, steps: seq<Step>)
    requires Legal(decode, c, steps)
    decreases |steps|
  {
    steps == [] || (RecheckedStep(c, steps[0]) && Rechecked(decode, Do(decode, c, steps[0]), steps[1..]))
  }

  /** No step of the run lets a node's term fall. */
  ghost predicate TermsRise(decode: EntryDecoder, c: Cluster, steps: seq<Step>)
    requires Legal(decode, c, steps)
    decreases |steps|
  {
    steps == [] || (Rises(c, Do(decode, c, steps[0])) && TermsRise(decode, Do(decode, c, steps[0]), steps[1..]))
  }

  /** Terms never fall in a run if and only if each adoption of a higher term finds
      its node's term not above it. */
  lemma {:induction false} TermsRiseIff(decode: EntryDecoder, c: Cluster, steps: seq<Step>)
    requires Legal(decode, c, steps)
    ensures TermsRise(decode, c, steps) <==> Rechecked(decode, c, steps)
    decreases |steps|
  {
    if steps != [] {
      StepRisesIff(decode, c, steps[0]);
      TermsRiseIff(decode, Do(decode, c, steps[0]), steps[1..]);
    }
  }

  lemma {:induction false} UninterruptedIsRechecked(decode: EntryDecoder, c: Cluster, steps: seq<Step>)
    requires Legal(decode, c, steps) && Uninterrupted(decode, c, steps) && AdoptsUpward(c)
    ensures Rechecked(decode, c, steps)
    decreases |steps|
  {
    if steps != [] {
      StepRisesIff(decode, c, steps[0]);
      UninterruptedIsRechecked(decode, Do(decode, c, steps[0]), steps[1..]);
    }
  }

  /** With uninterrupted vote handlers no node's term ever falls. */
  lemma {:induction false} TermsNeverFall(decode: EntryDecoder, start: Cluster, steps: seq<Step>)
    requires Init(start) && Legal(decode, start, steps) && Uninterrupted(decode, start, steps)
    ensures TermsRise(decode, start, steps)
  {
    UninterruptedIsRechecked(decode, start, steps);
    TermsRiseIff(decode, start, steps);
  }

  // ---------- Witness runs ----------

  ghost const THREE := Cluster(
    map[0 := Fresh(0, [1, 2], false), 1 := Fresh(1, [0, 2], false), 2 := Fresh(2, [0, 1], false)],
    map[0 := Idle, 1 := Idle, 2 := Idle],
    map[0 := [], 1 := [], 2 := []],
    map[], map[0 := {}, 1 := {}, 2 := {}], map[], map[], {}, {})

  lemma ThreeIsInitial()
    ensures Init(THREE)
  {
    ThreeMembers();
    ThreeAreIdle();
    ThreeAreFresh();
  }

  lemma ThreeAreIdle()
    ensures Shape(THREE)
    ensures forall n :: n in THREE.nodes ==> THREE.phases[n] == Idle && THREE.wins[n] == [] && THREE.counted[n] == {}
  {
    assert THREE.nodes.Keys == {0, 1, 2};
  }

  lemma ThreeAreFresh()
    ensures forall n :: n in THREE.nodes ==> THREE.nodes[n] == Fresh(n, THREE.nodes[n].peers, THREE.nodes[n].isMaster)
  {
  }

  lemma ThreeMembers()
    ensures Membership(THREE.nodes)
  {
  }

  /** Every legal continuation from c' extends to one from c that begins with `steps`. */
  ghost predicate Precedes(decode: EntryDecoder, c: Cluster, steps: seq<Step>, c': Cluster) {
    forall rest :: Legal(decode, c', rest) ==>
      Legal(decode, c, steps + rest) && Final(decode, c, steps + rest) == Final(decode, c', rest)
  }

  lemma One(decode: EntryDecoder, c: Cluster, s: Step)
    requires Shape(c) && Enabled(c, s)
    ensures Precedes(decode, c, [s], Do(decode, c, s))
  {
    forall rest | Legal(decode, Do(decode, c, s), rest)
      ensures Legal(decode, c, [s] + rest) && Final(decode, c, [s] + rest) == Final(decode, Do(decode, c, s), rest)
    {
      assert ([s] + rest)[1..] == rest;
    }
  }

  lemma Then(decode: EntryDecoder, c: Cluster, a: seq<Step>, c1: Cluster, b: seq<Step>, c2: Cluster)
    requires Precedes(decode, c, a, c1) && Precedes(decode, c1, b, c2)
    ensures Precedes(decode, c, a + b, c2)
  {
    forall rest | Legal(decode, c2, rest)
      ensures Legal(decode, c, a + b + rest) && Final(decode, c, a + b + rest) == Final(decode, c2, rest)
    {
      ThenRest(decode, c, a, c1, b, c2, rest);
    }
  }

  lemma {:induction false} ThenRest(decode: EntryDecoder, c: Cluster, a: seq<Step>, c1: Cluster, b: seq<Step>,
        c2: Cluster, rest: seq<Step>)
    requires Precedes(decode, c, a, c1) && Precedes(decode, c1, b, c2) && Legal(decode, c2, rest)
    ensures Legal(decode, c, a + b + rest) && Final(decode, c, a + b + rest) == Final(decode, c2, rest)
  {
    assert a + b + rest == a + (b + rest);
    assert Legal(decode, c1, b + rest);
  }

  lemma {:induction false} Arrive(decode: EntryDecoder, c: Cluster, steps: seq<Step>, c': Cluster)
    requires Precedes(decode, c, steps, c') && Shape(c')
    ensures Legal(decode, c, steps) && Final(decode, c, steps) == c'
  {
    assert steps + [] == steps;
    assert Legal(decode, c', []);
  }

  /** An AppendEntries call in the first gap raises the term, and the handler then
      writes the smaller one over it: the term of node 1 falls from 5 to 1. */
  lemma TermCanFall(decode: EntryDecoder) returns (steps: seq<Step>, c: Cluster)
    ensures Init(THREE) && Legal(decode, THREE, steps) && c == Final(decode, THREE, steps)
    ensures Enabled(c, Adopt(1))
    ensures c.nodes[1].currentTerm == 5 && Do(decode, c, Adopt(1)).nodes[1].currentTerm == 1
  {
    ThreeIsInitial();
    var c1 := Ask(decode, THREE, 0, 1);
    c := InGap(decode, c1, RpcKey(0, 1, 1));
    steps := [Timeout(0)] + ([Deliver(RpcKey(0, 1, 1))] + [RAISE]);
    Then(decode, THREE, [Timeout(0)], c1, [Deliver(RpcKey(0, 1, 1))] + [RAISE], c);
    Arrive(decode, THREE, steps, c);
  }

  const RAISE := ReceiveAppend(1, AppendRequest(5, 0, 0, [], 0))

  lemma InGap(decode: EntryDecoder, c: Cluster, k: RpcKey) returns (c2: Cluster)
    requires Shape(c) && Enabled(c, Deliver(k)) && k.voter == 1 && k.term == 1
    requires c.nodes[1].currentTerm == 0
    ensures Precedes(decode, c, [Deliver(k)] + [RAISE], c2)
    ensures Shape(c2) && Enabled(c2, Adopt(1)) && c2.phases[1].req.term == 1 && c2.nodes[1].currentTerm == 5
  {
    var c1 := DoDeliver(c, k);
    assert c1.phases[1].Adopting?;
    c2 := Do(decode, c1, RAISE);
    One(decode, c, Deliver(k));
    One(decode, c1, RAISE);
    Then(decode, c, [Deliver(k)], c1, [RAISE], c2);
  }

  // A campaign of node n that collects the vote of one peer v, event by event.

  ghost predicate CanCollect(c: Cluster, n: int, v: int) {
    && Shape(c) && n in c.nodes && v in c.nodes && n != v && n != NOBODY
    && c.phases[n].Idle? && c.phases[v].Idle?
    && c.nodes[n].role != Leader && c.nodes[n].id == n && |c.nodes[n].peers| == 2 && v in c.nodes[n].peers
    && c.nodes[n].log == [] && c.nodes[v].log == []
    && c.nodes[v].currentTerm <= c.nodes[n].currentTerm
  }

  function AskKey(c: Cluster, n: int, v: int): RpcKey
    requires n in c.nodes
  {
    RpcKey(n, c.nodes[n].currentTerm + 1, v)
  }

  ghost predicate CanAnswer(c: Cluster, k: RpcKey) {
    && Shape(c) && Enabled(c, Deliver(k)) && c.rpcs[k].last == LastLog(0, 0)
    && c.nodes[k.voter].currentTerm < k.term && c.nodes[k.voter].log == []
  }

  lemma Ask(decode: EntryDecoder, c: Cluster, n: int, v: int) returns (c1: Cluster)
    requires CanCollect(c, n, v)
    ensures c1.nodes == c.nodes[n := BeginElection(c.nodes[n])]
    ensures c1.phases == c.phases && c1.wins == c.wins && c1.led == c.led
    ensures CanAnswer(c1, AskKey(c, n, v))
    ensures Precedes(decode, c, [Timeout(n)], c1)
  {
    c1 := DoTimeout(c, n);
    One(decode, c, Timeout(n));
  }

  ghost function Answering(k: RpcKey): seq<Step> {
    [Deliver(k)] + ([Adopt(k.voter)] + ([Check(k.voter)] + [Grant(k.voter)]))
  }

  /** The voter's four sections and the state they leave. */
  lemma Answer(decode: EntryDecoder, c: Cluster, k: RpcKey) returns (c': Cluster)
    requires CanAnswer(c, k)
    ensures c'.nodes == c.nodes[k.voter := CastVote(AdoptTerm(c.nodes[k.voter], k.term), k.candidate)]
    ensures c'.phases == c.phases && c'.wins == c.wins && c'.led == c.led && c'.counted == c.counted
    ensures Shape(c') && k in c'.rpcs && c'.rpcs[k] == Replied(true)
    ensures Precedes(decode, c, Answering(k), c')
  {
    c' := FinishVote(DoDeliver(c, k), k.voter);
    SectionsMakeHandler(c, k);
    AnswerPath(decode, c, k, c');
  }

  lemma AnswerPath(decode: EntryDecoder, c: Cluster, k: RpcKey, c': Cluster)
    requires CanAnswer(c, k) && c' == FinishVote(DoDeliver(c, k), k.voter)
    ensures Precedes(decode, c, Answering(k), c')
  {
    var v := k.voter;
    var c1 := DoDeliver(c, k);
    var c2 := DoAdopt(c1, v);
    One(decode, c, Deliver(k));
    One(decode, c1, Adopt(v));
    GrantPath(decode, c2, v, c');
    Then(decode, c1, [Adopt(v)], c2, [Check(v)] + [Grant(v)], c');
    Then(decode, c, [Deliver(k)], c1, [Adopt(v)] + ([Check(v)] + [Grant(v)]), c');
  }

  lemma GrantPath(decode: EntryDecoder, c2: Cluster, v: int, c': Cluster)
    requires Shape(c2) && v in c2.nodes && c2.phases[v].Checking? && c2.phases[v].req.last == LastLog(0, 0)
    requires c2.nodes[v].log == [] && c2.nodes[v].votedFor == NOBODY && c' == FinishVote(c2, v)
    ensures Precedes(decode, c2, [Check(v)] + [Grant(v)], c')
  {
    var c3 := Evaluate(c2, v, c2.phases[v].req);
    One(decode, c2, Check(v));
    One(decode, c3, Grant(v));
    Then(decode, c2, [Check(v)], c3, [Grant(v)], c');
  }

  lemma CountOne(decode: EntryDecoder, c: Cluster, k: RpcKey) returns (c': Cluster)
    requires Shape(c) && Enabled(c, Count(k)) && c.rpcs[k] == Replied(true)
    requires var node := c.nodes[k.candidate];
             && node.role == Candidate && node.currentTerm == k.term
             && node.votesReceived == 1 && node.totalVotes == 3
    ensures c'.nodes == c.nodes[k.candidate := c.nodes[k.candidate].(votesReceived := 2)]
    ensures Shape(c') && c'.phases == c.phases && c'.led == c.led
    ensures c'.wins == c.wins[k.candidate := c.wins[k.candidate] + [k.term]]
    ensures Precedes(decode, c, [Count(k)], c')
  {
    c' := DoCount(c, k);
    One(decode, c, Count(k));
  }

  ghost function Collecting(k: RpcKey): seq<Step> {
    [Timeout(k.candidate)] + (Answering(k) + [Count(k)])
  }

  lemma AnswerAndCount(decode: EntryDecoder, c: Cluster, k: RpcKey) returns (c': Cluster)
    requires CanAnswer(c, k) && k.candidate in c.nodes && k.candidate != k.voter && c.phases[k.candidate].Idle?
    requires var node := c.nodes[k.candidate];
             && node.role == Candidate && node.currentTerm == k.term
             && node.votesReceived == 1 && node.totalVotes == 3
    ensures c'.nodes == c.nodes[k.voter := CastVote(AdoptTerm(c.nodes[k.voter], k.term), k.candidate)]
                               [k.candidate := c.nodes[k.candidate].(votesReceived := 2)]
    ensures Shape(c') && c'.phases == c.phases && c'.led == c.led
    ensures c'.wins == c.wins[k.candidate := c.wins[k.candidate] + [k.term]]
    ensures Precedes(decode, c, Answering(k) + [Count(k)], c')
  {
    var c1 := Answer(decode, c, k);
    c' := CountOne(decode, c1, k);
    Then(decode, c, Answering(k), c1, [Count(k)], c');
  }

  lemma Overwrite<K, V>(m: map<K, V>, a: K, x: V, b: K, y: V, z: V)
    ensures m[a := x][b := y][a := z] == m[b := y][a := z]
  {
  }

  /** Node n wins the next term with the vote of v. */
  lemma Collect(decode: EntryDecoder, c: Cluster, n: int, v: int) returns (c': Cluster)
    requires CanCollect(c, n, v)
    ensures c'.nodes == c.nodes[v := CastVote(AdoptTerm(c.nodes[v], c.nodes[n].currentTerm + 1), n)]
                               [n := BeginElection(c.nodes[n]).(votesReceived := 2)]
    ensures Shape(c') && c'.phases == c.phases && c'.led == c.led
    ensures c'.wins == c.wins[n := c.wins[n] + [c.nodes[n].currentTerm + 1]]
    ensures Precedes(decode, c, Collecting(AskKey(c, n, v)), c')
  {
    var k := AskKey(c, n, v);
    var c1 := Ask(decode, c, n, v);
    c' := AnswerAndCount(decode, c1, k);
    var begun := BeginElection(c.nodes[n]);
    Overwrite(c.nodes, n, begun, v, CastVote(AdoptTerm(c.nodes[v], k.term), n), begun.(votesReceived := 2));
    Then(decode, c, [Timeout(n)], c1, Answering(k) + [Count(k)], c');
  }

  /** Node n, still candidate with an event queued in its previous campaign, starts
      another campaign and then handles the event. */
  lemma StaleWin(decode: EntryDecoder, c: Cluster, n: int) returns (c': Cluster)
    requires Shape(c) && n in c.nodes && c.phases[n].Idle? && c.nodes[n].role == Candidate
    requires c.wins[n] != [] && c.nodes[n].peers != []
    ensures c'.nodes == c.nodes[n := BeginElection(c.nodes[n]).(role := Leader, isMaster := true)]
    ensures Shape(c') && c'.phases == c.phases && c'.wins == c.wins[n := c.wins[n][1..]]
    ensures Precedes(decode, c, [Timeout(n)] + [HandleWin(n)], c')
  {
    var c1 := DoTimeout(c, n);
    c' := DoHandleWin(c1, n);
    One(decode, c, Timeout(n));
    One(decode, c1, HandleWin(n));
    Then(decode, c, [Timeout(n)], c1, [HandleWin(n)], c');
  }

  lemma TimeOut(decode: EntryDecoder, c: Cluster, n: int) returns (c': Cluster)
    requires Shape(c) && Enabled(c, Timeout(n)) && c.nodes[n].peers != []
    ensures Shape(c') && c'.nodes == c.nodes[n := BeginElection(c.nodes[n])] && c'.phases == c.phases &&
        c'.wins == c.wins
    ensures Precedes(decode, c, [Timeout(n)], c')
  {
    c' := DoTimeout(c, n);
    One(decode, c, Timeout(n));
  }

  lemma HearWin(decode: EntryDecoder, c: Cluster, n: int) returns (c': Cluster)
    requires Shape(c) && Enabled(c, HandleWin(n))
    ensures Shape(c') && c'.nodes == c.nodes[n := BecomeLeader(c.nodes[n])]
    ensures Precedes(decode, c, [HandleWin(n)], c')
  {
    c' := DoHandleWin(c, n);
    One(decode, c, HandleWin(n));
  }

  ghost predicate TwoLead(c: Cluster) {
    && c.nodes.Keys == {0, 1, 2}
    && c.nodes[0].role == Leader && c.nodes[0].currentTerm == 2 && c.nodes[0].votesReceived == 1
    && c.nodes[2].role == Leader && c.nodes[2].currentTerm == 2 && c.nodes[2].votesReceived == 2
  }

  /** Node 2 comes late: it times out twice, wins term 2 with the vote of node 1
      and handles its event at once. */
  lemma LateWinner(decode: EntryDecoder, c: Cluster) returns (steps: seq<Step>, c': Cluster)
    requires Shape(c) && c.nodes.Keys == {0, 1, 2}
    requires c.nodes[0].role == Leader && c.nodes[0].currentTerm == 2 && c.nodes[0].votesReceived == 1
    requires c.nodes[1].currentTerm == 1 && c.nodes[1].log == []
    requires c.nodes[2] == Fresh(2, [0, 1], false) && c.wins[2] == [] && c.phases[1].Idle? && c.phases[2].Idle?
    ensures Precedes(decode, c, steps, c') && Shape(c') && TwoLead(c')
  {
    var c1 := TimeOut(decode, c, 2);
    var c2 := Collect(decode, c1, 2, 1);
    c' := HearWin(decode, c2, 2);
    var collecting := Collecting(AskKey(c1, 2, 1));
    Then(decode, c1, collecting, c2, [HandleWin(2)], c');
    Then(decode, c, [Timeout(2)], c1, collecting + [HandleWin(2)], c');
    steps := [Timeout(2)] + (collecting + [HandleWin(2)]);
  }

  /** A run of three nodes in which node 0 leads term 2 on its own vote alone while
      node 2, properly elected with the vote of node 1, leads term 2 as well: node 0
      won term 1, timed out into term 2 and only then handled its BecomeLeaderEvent. */
  lemma TwoLeaders(decode: EntryDecoder) returns (steps: seq<Step>)
    ensures Init(THREE) && Legal(decode, THREE, steps) && TwoLead(Final(decode, THREE, steps))
  {
    ThreeIsInitial();
    var c1 := Collect(decode, THREE, 0, 1);
    var c2 := StaleWin(decode, c1, 0);
    var stale := [Timeout(0)] + [HandleWin(0)];
    var late, c3 := LateWinner(decode, c2);
    Then(decode, c1, stale, c2, late, c3);
    Then(decode, THREE, Collecting(AskKey(THREE, 0, 1)), c1, stale + late, c3);
    steps := Collecting(AskKey(THREE, 0, 1)) + (stale + late);
    Arrive(decode, THREE, steps, c3);
  }
}
