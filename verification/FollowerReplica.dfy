/** A follower fed from the start of one append-only leader log is always a prefix
    replica of it: whatever the order, the repeats and the terms of the requests,
    its log is a prefix of the leader's commands and its map is their replay. */
module FollowerReplica {
  import opened RaftTypes
  import opened CommandCodec
  import opened KvStore
  import opened RaftNode
  import opened FollowerLog

  /** The fields the election handlers write. */
  datatype Standing = Standing(role: Role, isMaster: bool, currentTerm: int, votedFor: int, votesReceived: int,
        totalVotes: int)

  datatype Event =
    | Ship(term: int, count: nat, leaderCommit: int)  // the leader's first `count` commands
    | Ping(request: AppendRequest)                    // a request without entries
    | Apply
    | Election(standing: Standing)                    // any election handler

  datatype Machine = Machine(node: Node, store: Store)

  function Restand(n: Node, s: Standing): Node {
    n.(role := s.role, isMaster := s.isMaster, currentTerm := s.currentTerm, votedFor := s.votedFor,
       votesReceived := s.votesReceived, totalVotes := s.totalVotes)
  }

  function StandingOf(n: Node): Standing {
    Standing(n.role, n.isMaster, n.currentTerm, n.votedFor, n.votesReceived, n.totalVotes)
  }

  /** Every election handler is such a change. */
  lemma HandlersRestand(n: Node, req: VoteRequest, sentTerm: int, term: int)
    ensures Restand(n, StandingOf(BeginElection(n))) == BeginElection(n)
    ensures Restand(n, StandingOf(AdoptTerm(n, term))) == AdoptTerm(n, term)
    ensures Restand(n, StandingOf(AnswerVote(n, req).0)) == AnswerVote(n, req).0
    ensures Restand(n, StandingOf(CountVote(n))) == CountVote(n)
    ensures Restand(n, StandingOf(BecomeLeader(n))) == BecomeLeader(n)
    ensures Restand(n, StandingOf(HeartbeatReply(n, sentTerm, term))) == HeartbeatReply(n, sentTerm, term)
  {
  }

  predicate Possible(leader: seq<string>, e: Event) {
    match e
    case Ship(_, count, _) => count <= |leader|
    case Ping(request) => request.entries == []
    case _ => true
  }

  function ShipRequest(leader: seq<string>, e: Event): AppendRequest
    requires e.Ship? && e.count <= |leader|
  {
    AppendRequest(e.term, 0, 0, leader[..e.count], e.leaderCommit)
  }

  function React(decode: EntryDecoder, json: JsonDecoder, leader: seq<string>, f: Machine, e: Event): Machine
    requires Possible(leader, e) && f.node.lastApplied >= 0
  {
    match e
    case Ship(_, _, _) => f.(node := Append(decode, f.node, ShipRequest(leader, e)).0)
    case Ping(request) => f.(node := Append(decode, f.node, request).0)
    case Apply => var (node, store, _) := ApplyCommitted(json, f.node, f.store); Machine(node, store)
    case Election(standing) => f.(node := Restand(f.node, standing))
  }

  /** Heartbeats are the handler's, and an election handler may leave any standing: log,
      indices and store stay. */
  lemma EventsReach(decode: EntryDecoder, json: JsonDecoder, leader: seq<string>, f: Machine, request: AppendRequest,
        s: Standing)
    requires request.entries == [] && f.node.lastApplied >= 0
    ensures React(decode, json, leader, f, Ping(request)) == Machine(Append(decode, f.node, request).0, f.store)
    ensures var f' := React(decode, json, leader, f, Election(s));
            && StandingOf(f'.node) == s && f'.store == f.store && f'.node.log == f.node.log
            && f'.node.commitIndex == f.node.commitIndex && f'.node.lastApplied == f.node.lastApplied
  {
  }

  /** The leader's commands as a follower stores them. */
  function StoredAll(decode: EntryDecoder, leader: seq<string>): (r: seq<string>)
    ensures |r| == |leader|
    ensures forall i :: 0 <= i < |r| ==> r[i] == Stored(decode, leader[i])
  {
    seq(|leader|, i requires 0 <= i < |leader| => Stored(decode, leader[i]))
  }

  function Seen(seen: int, e: Event): int {
    if e.Ship? then Max(seen, e.leaderCommit) else seen
  }

  /** The log is a prefix of these commands, numbered by position. */
  ghost predicate PrefixOf(log: seq<LogEntry>, commands: seq<string>) {
    && |log| <= |commands|
    && forall i {:trigger log[i]} :: 0 <= i < |log| ==> log[i].index == i + 1 && log[i].command == commands[i]
  }

  /** `start` is the store with which the life began: its entries up to its mark are never
      applied again, so its map has since performed the commands from the mark up to lastApplied. */
  ghost predicate ReplaysFrom(json: JsonDecoder, commands: seq<string>, start: Store, last: int, st: Store) {
    var mark := start.lastAppliedIndex;
    && 0 <= last <= |commands| && 0 <= mark <= |commands|
    && mark <= st.lastAppliedIndex <= Max(last, mark)
    && st.data == Replay(json, start.data, commands[mark..Max(last, mark)])
  }

  ghost predicate Replica(json: JsonDecoder, commands: seq<string>, start: Store, seen: int, f: Machine) {
    && PrefixOf(f.node.log, commands)
    && ReplaysFrom(json, commands, start, f.node.lastApplied, f.store)
    && f.node.commitIndex <= seen && f.node.lastApplied <= seen
  }

  lemma ShipKeepsPrefix(decode: EntryDecoder, leader: seq<string>, n: Node, e: Event)
    requires e.Ship? && Possible(leader, e) && PrefixOf(n.log, StoredAll(decode, leader))
    ensures PrefixOf(Append(decode, n, ShipRequest(leader, e)).0.log, StoredAll(decode, leader))
  {
    var req := ShipRequest(leader, e);
    if Accepts(decode, n, req) {
      FullRequest(decode, n, req);
    }
  }

  lemma AppendKeepsMarks(decode: EntryDecoder, n: Node, req: AppendRequest)
    requires Wellformed(req)
    ensures var n' := Append(decode, n, req).0;
            && n'.lastApplied == n.lastApplied && n'.commitIndex <= Max(n.commitIndex, req.leaderCommit)
            && (req.entries == [] ==> n'.log == n.log && n'.commitIndex == n.commitIndex)
  {
  }

  /** Replaying the stretch the apply loop ran through extends what was replayed before. */
  lemma ApplyExtends(json: JsonDecoder, data: Data, commands: seq<string>, log: seq<LogEntry>, mark: nat, from: nat,
        last: nat)
    requires PrefixOf(log, commands) && mark <= from < last <= |log|
    ensures Replay(json, Replay(json, data, commands[mark..from]), Span(log, from, last)) ==
        Replay(json, data, commands[mark..last])
  {
    assert commands[mark..last] == commands[mark..from] + Span(log, from, last);
    ReplayConcat(json, data, commands[mark..from], Span(log, from, last));
  }

  lemma ApplyKeeps(json: JsonDecoder, commands: seq<string>, start: Store, seen: int, f: Machine)
    requires Replica(json, commands, start, seen, f)
    ensures var (node, store, _) := ApplyCommitted(json, f.node, f.store);
            && Replica(json, commands, start, seen, Machine(node, store))
            && node.lastApplied >= f.node.lastApplied
  {
    AppliesOnce(json, f.node, f.store);
    var (node, store, _) := ApplyCommitted(json, f.node, f.store);
    var mark := start.lastAppliedIndex;
    var base := Max(f.node.lastApplied, mark);
    assert base == Max(f.node.lastApplied, f.store.lastAppliedIndex);
    if node.lastApplied > base {
      ApplyExtends(json, start.data, commands, f.node.log, mark, base, node.lastApplied);
    }
  }

  lemma ReactKeeps(decode: EntryDecoder, json: JsonDecoder, leader: seq<string>, start: Store, seen: int, f: Machine,
        e: Event)
    requires Possible(leader, e) && Replica(json, StoredAll(decode, leader), start, seen, f)
    ensures var f' := React(decode, json, leader, f, e);
            && Replica(json, StoredAll(decode, leader), start, Seen(seen, e), f')
            && f'.node.lastApplied >= f.node.lastApplied
  {
    match e
    case Ship(_, _, _) =>
      ShipKeepsPrefix(decode, leader, f.node, e);
      AppendKeepsMarks(decode, f.node, ShipRequest(leader, e));
    case Ping(request) => AppendKeepsMarks(decode, f.node, request);
    case Apply => ApplyKeeps(json, StoredAll(decode, leader), start, seen, f);
    case Election(_) =>
  }

  ghost predicate AllPossible(leader: seq<string>, events: seq<Event>) {
    forall i :: 0 <= i < |events| ==> Possible(leader, events[i])
  }

  function SeenAll(seen: int, events: seq<Event>): int
    decreases |events|
  {
    if events == [] then seen else SeenAll(Seen(seen, events[0]), events[1..])
  }

  /** The follower after the events; the invariant keeps lastApplied non-negative on the way. */
  ghost function ReactAll(decode: EntryDecoder, json: JsonDecoder, leader: seq<string>, start: Store, seen: int,
        f: Machine, events: seq<Event>): Machine
    requires AllPossible(leader, events) && Replica(json, StoredAll(decode, leader), start, seen, f)
    decreases |events|
  {
    if events == [] then f
    else
      var e := events[0];
      ReactKeeps(decode, json, leader, start, seen, f, e);
      ReactAll(decode, json, leader, start, Seen(seen, e), React(decode, json, leader, f, e), events[1..])
  }

  lemma {:induction false} ReactAllKeeps(decode: EntryDecoder, json: JsonDecoder, leader: seq<string>, start: Store,
        seen: int, f: Machine, events: seq<Event>)
    requires AllPossible(leader, events) && Replica(json, StoredAll(decode, leader), start, seen, f)
    ensures var f' := ReactAll(decode, json, leader, start, seen, f, events);
            && Replica(json, StoredAll(decode, leader), start, SeenAll(seen, events), f')
            && f'.node.lastApplied >= f.node.lastApplied
    decreases |events|
  {
    if events != [] {
      var e := events[0];
      ReactKeeps(decode, json, leader, start, seen, f, e);
      ReactAllKeeps(decode, json, leader, start, Seen(seen, e), React(decode, json, leader, f, e), events[1..]);
    }
  }

  /** Where a life begins: a new node, and the store it has by then, empty or filled by a
      log synchronisation, not ahead of the leader's log. */
  datatype Origin = Origin(id: int, peers: seq<int>, store: Store)

  ghost predicate Admits(leader: seq<string>, o: Origin) { 0 <= o.store.lastAppliedIndex <= |leader| }

  /** Its map is the replay of the leader's commands up to its mark. */
  ghost predicate Starts(json: JsonDecoder, commands: seq<string>, o: Origin) {
    && 0 <= o.store.lastAppliedIndex <= |commands|
    && o.store.data == Replay(json, map[], commands[..o.store.lastAppliedIndex])
  }

  /** An empty store is such a start. */
  lemma EmptyStarts(json: JsonDecoder, commands: seq<string>, id: int, peers: seq<int>)
    ensures Starts(json, commands, Origin(id, peers, EMPTY_STORE))
  {
    assert commands[..0] == [];
  }

  function NewFollower(o: Origin): Machine { Machine(Fresh(o.id, o.peers, false), o.store) }

  /** The follower after a life. */
  ghost function Lived(decode: EntryDecoder, json: JsonDecoder, leader: seq<string>, o: Origin,
        events: seq<Event>): (f: Machine)
    requires AllPossible(leader, events) && Admits(leader, o)
    ensures f.node.lastApplied >= 0
  {
    ReactAllKeeps(decode, json, leader, o.store, 0, NewFollower(o), events);
    ReactAll(decode, json, leader, o.store, 0, NewFollower(o), events)
  }

  lemma {:induction false} LivedReplica(decode: EntryDecoder, json: JsonDecoder, leader: seq<string>, o: Origin,
        events: seq<Event>)
    requires AllPossible(leader, events) && Admits(leader, o)
    ensures Replica(json, StoredAll(decode, leader), o.store, SeenAll(0, events),
                    Lived(decode, json, leader, o, events))
  {
    ReactAllKeeps(decode, json, leader, o.store, 0, NewFollower(o), events);
  }

  lemma {:induction false} StartsReplay(json: JsonDecoder, commands: seq<string>, o: Origin, last: nat)
    requires Starts(json, commands, o) && o.store.lastAppliedIndex <= last <= |commands|
    ensures Replay(json, o.store.data, commands[o.store.lastAppliedIndex..last]) ==
        Replay(json, map[], commands[..last])
  {
    var mark := o.store.lastAppliedIndex;
    assert commands[..last] == commands[..mark] + commands[mark..last];
    ReplayConcat(json, map[], commands[..mark], commands[mark..last]);
  }

  /** Every life, from any store that is not ahead of the leader's log: the log is a prefix
      of the leader's commands, numbered by position, and the map has performed the
      commands from the store's mark up to lastApplied; lastApplied is at most the largest
      leader commit index the follower was told.  From a store that was the replay up to
      its mark, an empty one for instance, the map is the replay of the prefix. */
  lemma {:induction false} AlwaysPrefixReplica(decode: EntryDecoder, json: JsonDecoder, leader: seq<string>, o: Origin,
        events: seq<Event>)
    requires AllPossible(leader, events) && Admits(leader, o)
    ensures var f := Lived(decode, json, leader, o, events);
            var commands, mark := StoredAll(decode, leader), o.store.lastAppliedIndex;
            && Commands(f.node.log) <= commands && Indexed(f.node.log)
            && 0 <= f.node.lastApplied <= Min(|commands|, SeenAll(0, events))
            && f.node.commitIndex <= SeenAll(0, events)
            && f.store.data == Replay(json, o.store.data, commands[mark..Max(f.node.lastApplied, mark)])
            && (Starts(json, commands, o) ==>
                  f.store.data == Replay(json, map[], commands[..Max(f.node.lastApplied, mark)]))
            && f.store.lastAppliedIndex <= Max(f.node.lastApplied, mark)
  {
    LivedReplica(decode, json, leader, o, events);
    var f, commands := Lived(decode, json, leader, o, events), StoredAll(decode, leader);
    assert Commands(f.node.log) == commands[..|f.node.log|];
    if Starts(json, commands, o) {
      StartsReplay(json, commands, o, Max(f.node.lastApplied, o.store.lastAppliedIndex));
    }
  }

  /** State machine safety for such followers: two of them that have applied equally
      far hold the same map, whatever each of them lived through. */
  lemma FollowersAgree(decode: EntryDecoder, json: JsonDecoder, leader: seq<string>,
        o1: Origin, events1: seq<Event>, o2: Origin, events2: seq<Event>)
    requires AllPossible(leader, events1) && Admits(leader, o1) && Starts(json, StoredAll(decode, leader), o1)
    requires AllPossible(leader, events2) && Admits(leader, o2) && Starts(json, StoredAll(decode, leader), o2)
    ensures var f1, f2 := Lived(decode, json, leader, o1, events1), Lived(decode, json, leader, o2, events2);
            Max(f1.node.lastApplied, o1.store.lastAppliedIndex) ==
                Max(f2.node.lastApplied, o2.store.lastAppliedIndex) ==>
              f1.store.data == f2.store.data
  {
    AlwaysPrefixReplica(decode, json, leader, o1, events1);
    AlwaysPrefixReplica(decode, json, leader, o2, events2);
  }

  /** Why the prefix must start at 0: after the first entry is stored, shipping the
      second one alone answers success, raises the commit index and stores nothing. */
  lemma SuffixIsLost(decode: EntryDecoder, first: string, second: string)
    ensures var n1 := Append(decode, Fresh(1, [0], false), AppendRequest(1, 0, 0, [first], 0)).0;
            var (n2, reply) := Append(decode, n1, AppendRequest(1, 1, 1, [second], 1));
            reply.success && n2.log == n1.log && |n2.log| == 1 && n2.commitIndex == 1
  {
  }

  /** And shipping the second and third leaves the third at the second's place. */
  lemma SuffixLeavesGap(decode: EntryDecoder, first: string, second: string, third: string)
    ensures var n1 := Append(decode, Fresh(1, [0], false), AppendRequest(1, 0, 0, [first], 0)).0;
            var (n2, reply) := Append(decode, n1, AppendRequest(1, 1, 1, [second, third], 1));
            reply.success && |n2.log| == 2 && n2.log[1].index == 3 && n2.log[1].command == Stored(decode, third)
  {
  }

  /** The gap is for good: the whole log, shipped from its start at the same term, is
      answered with success and leaves the third entry in the second position. */
  lemma GapStays(decode: EntryDecoder, first: string, second: string, third: string)
    ensures var n1 := Append(decode, Fresh(1, [0], false), AppendRequest(1, 0, 0, [first], 0)).0;
            var n2 := Append(decode, n1, AppendRequest(1, 1, 1, [second, third], 1)).0;
            var whole := AppendRequest(1, 0, 0, [first, second, third], 1);
            var (n3, reply) := Append(decode, n2, whole);
            reply.success && |n3.log| == 3 && n3.log[1] == n2.log[1] && n3.log[1].index == 3 &&
                !Holds(decode, n3.log, whole, 1)
  {
    SuffixLeavesGap(decode, first, second, third);
    var n1 := Append(decode, Fresh(1, [0], false), AppendRequest(1, 0, 0, [first], 0)).0;
    var n2 := Append(decode, n1, AppendRequest(1, 1, 1, [second, third], 1)).0;
    var whole := AppendRequest(1, 0, 0, [first, second, third], 1);
    AcceptedWhen(decode, n2, whole);
    assert Survives(n2.log, whole) == 2;
    FullRequest(decode, n2, whole);
    SurvivorsStay(decode, n2, whole, 1);
  }

  /** Terms decide, not commands: an entry of the request's term and number stays,
      whatever command it holds. */
  lemma OldCommandStays(decode: EntryDecoder, kept: string, shipped: string)
    requires Stored(decode, shipped) != kept
    ensures var n := Fresh(1, [0], false).(currentTerm := 1, log := [LogEntry(1, 1, kept)]);
            var req := AppendRequest(1, 0, 0, [shipped], 0);
            var (n', reply) := Append(decode, n, req);
            reply.success && n'.log == n.log && !Holds(decode, n'.log, req, 0)
  {
    var n := Fresh(1, [0], false).(currentTerm := 1, log := [LogEntry(1, 1, kept)]);
    var req := AppendRequest(1, 0, 0, [shipped], 0);
    AcceptedWhen(decode, n, req);
    assert Survives(n.log, req) == 1;
    SurvivorsStay(decode, n, req, 0);
    FullRequest(decode, n, req);
  }
}
