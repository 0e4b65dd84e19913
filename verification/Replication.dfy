/** The leader's service path: Set, Get and Delete, the pre-commit round to the
    peers, the commit, and the answer to the client.  `Server` is the value of the
    leader's RaftState, key-value store and configured master flag; how the goroutines
    of a round interleave and what peers answer is a parameter, a lost answer being absent. */
module Replication {
  import opened RaftTypes
  import opened CommandCodec
  import opened KvStore
  import opened LeaderState

  datatype Server = Server(raft: Raft, store: Store, master: bool)

  datatype Op = Put(key: string, value: string) | Remove(key: string)

  datatype Arrival = Arrival(peer: string, reply: AppendReply)

  datatype Outcome = Outcome(commit: int, error: Option<string>)

  function Print(op: Op): string {
    match op
    case Put(k, v) => PrintSet(k, v)
    case Remove(k) => PrintDelete(k)
  }

  function OpEffect(data: Data, op: Op): Data {
    match op
    case Put(k, v) => data[k := v]
    case Remove(k) => data - {k}
  }

  // ---------- One peer ----------

  /** The first index to send: recorded, or the last log index for a peer never contacted. */
  function NextFor(r: Raft, peer: string): int {
    if peer in r.nextIndex then r.nextIndex[peer]
    else if r.logs == [] then 1 else LastIndex(r.logs)
  }

  function Contact(r: Raft, peer: string): Raft {
    if peer in r.nextIndex then r
    else r.(nextIndex := r.nextIndex[peer := NextFor(r, peer)], matchIndex := r.matchIndex[peer := 0])
  }

  /** Entries whose index lies in from..to, read by slice position. */
  function Slice(logs: seq<LogEntry>, from: int, to: int): seq<LogEntry> {
    var lo, hi := Max(from - 1, 0), Min(to, |logs|);
    if lo < hi then logs[lo..hi] else []
  }

  function TermAt(logs: seq<LogEntry>, index: int): int {
    if 0 < index <= |logs| then logs[index - 1].term else 0
  }

  function RequestTo(r: Raft, peer: string, newIndex: int): AppendRequest {
    var next := NextFor(r, peer);
    AppendRequest(r.currentTerm, next - 1, TermAt(r.logs, next - 1), Commands(Slice(r.logs, next, newIndex)),
        r.commitIndex)
  }

  function HandleReply(r: Raft, peer: string, newIndex: int, reply: AppendReply): Raft {
    if reply.success then
      r.(matchIndex := r.matchIndex[peer := newIndex], nextIndex := r.nextIndex[peer := newIndex + 1])
    else if reply.term > r.currentTerm then
      r.(currentTerm := reply.term, votedFor := NOBODY, isMaster := false)
    else
      var next := if peer in r.nextIndex then r.nextIndex[peer] else 0;
      r.(nextIndex := r.nextIndex[peer := Max(1, next - 1)])
  }

  // ---------- The round ----------

  function ContactAll(r: Raft, peers: seq<string>): Raft {
    if peers == [] then r else Contact(ContactAll(r, peers[..|peers| - 1]), peers[|peers| - 1])
  }

  function HandleAll(r: Raft, newIndex: int, arrivals: seq<Arrival>): Raft {
    if arrivals == [] then r
    else
      var n := |arrivals| - 1;
      HandleReply(HandleAll(r, newIndex, arrivals[..n]), arrivals[n].peer, newIndex, arrivals[n].reply)
  }

  function Successes(arrivals: seq<Arrival>): nat {
    if arrivals == [] then 0
    else
      var n := |arrivals| - 1;
      Successes(arrivals[..n]) + if arrivals[n].reply.success then 1 else 0
  }

  predicate Acknowledged(peers: seq<string>, arrivals: seq<Arrival>) {
    peers == [] || 1 + Successes(arrivals) >= |peers| / 2 + 1
  }

  function Commit(json: JsonDecoder, s: Server, index: int): (Server, Outcome)
    requires s.raft.lastApplied >= 0
  {
    var (raft, store, error) := ApplyPending(json, s.raft.(commitIndex := index), s.store);
    (s.(raft := raft, store := store), Outcome(if error.Some? then -1 else index, error))
  }

  function Replicate(json: JsonDecoder, s: Server, index: int, arrivals: seq<Arrival>): (Server, Outcome)
    requires s.raft.lastApplied >= 0
  {
    if !s.master then (s, Outcome(-1, None))
    else if s.raft.peers == [] then Commit(json, s, index)
    else
      var s1 := s.(raft := HandleAll(ContactAll(s.raft, s.raft.peers), index, arrivals));
      HandleAllFrame(ContactAll(s.raft, s.raft.peers), index, arrivals);
      ContactAllFrame(s.raft, s.raft.peers);
      if Acknowledged(s.raft.peers, arrivals) then Commit(json, s1, index) else (s1, Outcome(-1, None))
  }

  /** Set and Delete share everything but the printed command and the final direct effect. */
  function Write(json: JsonDecoder, s: Server, op: Op, arrivals: seq<Arrival>): (Server, bool)
    requires s.raft.lastApplied >= 0
  {
    if !s.master then (s, false)
    else
      var index := Max(LastIndex(s.raft.logs) + 1, 1);
      var e := LogEntry(s.raft.currentTerm, index, Print(op));
      var (s1, out) := Replicate(json, s.(raft := s.raft.(logs := AppendLog(s.raft.logs, e))), index, arrivals);
      if out.error.Some? || out.commit < index then (s1, false)
      else (s1.(store := s1.store.(data := OpEffect(s1.store.data, op))), true)
  }

  // ---------- What a round leaves alone ----------

  ghost predicate SameButPeers(a: Raft, b: Raft) {
    a.logs == b.logs && a.commitIndex == b.commitIndex && a.lastApplied == b.lastApplied && a.peers == b.peers
  }

  lemma {:induction false} ContactAllFrame(r: Raft, peers: seq<string>)
    ensures SameButPeers(r, ContactAll(r, peers))
    ensures ContactAll(r, peers).currentTerm == r.currentTerm
    ensures forall p :: p in peers ==> p in ContactAll(r, peers).nextIndex
  {
    if peers != [] {
      ContactAllFrame(r, peers[..|peers| - 1]);
    }
  }

  lemma {:induction false} HandleAllFrame(r: Raft, newIndex: int, arrivals: seq<Arrival>)
    ensures SameButPeers(r, HandleAll(r, newIndex, arrivals))
    ensures HandleAll(r, newIndex, arrivals).currentTerm >= r.currentTerm
  {
    if arrivals != [] {
      HandleAllFrame(r, newIndex, arrivals[..|arrivals| - 1]);
    }
  }

  // ---------- The round in any order ----------

  /** The goroutines of a round interleave: a request goes out, or an answer comes in. */
  datatype RoundStep = Sent(peer: string) | Answered(arrival: Arrival)

  function RoundAll(r: Raft, newIndex: int, steps: seq<RoundStep>): Raft {
    if steps == [] then r
    else
      var n := |steps| - 1;
      var r1 := RoundAll(r, newIndex, steps[..n]);
      match steps[n]
      case Sent(peer) => Contact(r1, peer)
      case Answered(Arrival(peer, reply)) => HandleReply(r1, peer, newIndex, reply)
  }

  /** The requests of a round, each built from the leader's record of that moment. */
  function RoundRequests(r: Raft, newIndex: int, steps: seq<RoundStep>): seq<AppendRequest> {
    if steps == [] then []
    else
      var n := |steps| - 1;
      RoundRequests(r, newIndex, steps[..n]) +
      if steps[n].Sent? then [RequestTo(RoundAll(r, newIndex, steps[..n]), steps[n].peer, newIndex)] else []
  }

  function Sends(steps: seq<RoundStep>): seq<string> {
    if steps == [] then []
    else
      var n := |steps| - 1;
      Sends(steps[..n]) + if steps[n].Sent? then [steps[n].peer] else []
  }

  function Answers(steps: seq<RoundStep>): seq<Arrival> {
    if steps == [] then []
    else
      var n := |steps| - 1;
      Answers(steps[..n]) + if steps[n].Answered? then [steps[n].arrival] else []
  }

  /** A peer answers only what it was sent. */
  predicate Ordered(steps: seq<RoundStep>) {
    steps == [] ||
    (var n := |steps| - 1;
     Ordered(steps[..n]) && (steps[n].Answered? ==> steps[n].arrival.peer in Sends(steps[..n])))
  }

  /** Each peer is contacted, once. */
  predicate Covers(peers: seq<string>, steps: seq<RoundStep>) {
    multiset(Sends(steps)) == multiset(peers)
  }

  predicate Silent(arrivals: seq<Arrival>, peer: string) {
    forall i :: 0 <= i < |arrivals| ==> arrivals[i].peer != peer
  }

  lemma {:induction false} ContactCommutes(r: Raft, newIndex: int, arrivals: seq<Arrival>, peer: string)
    requires peer in r.nextIndex || Silent(arrivals, peer)
    ensures Contact(HandleAll(r, newIndex, arrivals), peer) == HandleAll(Contact(r, peer), newIndex, arrivals)
    ensures peer in r.nextIndex ==> peer in HandleAll(r, newIndex, arrivals).nextIndex
  {
    if arrivals != [] {
      var n := |arrivals| - 1;
      ContactCommutes(r, newIndex, arrivals[..n], peer);
      if peer !in r.nextIndex {
        ReplyCommutes(HandleAll(r, newIndex, arrivals[..n]), arrivals[n].peer, newIndex, arrivals[n].reply, peer);
      }
    }
  }

  lemma UpdatesCommute(m: map<string, int>, a: string, x: int, b: string, y: int)
    requires a != b
    ensures m[a := x][b := y] == m[b := y][a := x]
  {
  }

  lemma ReplyCommutes(r: Raft, peer: string, newIndex: int, reply: AppendReply, other: string)
    requires peer != other
    ensures Contact(HandleReply(r, peer, newIndex, reply), other) ==
        HandleReply(Contact(r, other), peer, newIndex, reply)
  {
    var first := NextFor(r, other);
    if other in r.nextIndex {
    } else if reply.success {
      UpdatesCommute(r.nextIndex, peer, newIndex + 1, other, first);
      UpdatesCommute(r.matchIndex, peer, newIndex, other, 0);
    } else if reply.term <= r.currentTerm {
      var next := if peer in r.nextIndex then r.nextIndex[peer] else 0;
      UpdatesCommute(r.nextIndex, peer, Max(1, next - 1), other, first);
    }
  }

  lemma {:induction false} AnswersWereSent(steps: seq<RoundStep>)
    requires Ordered(steps)
    ensures forall i :: 0 <= i < |Answers(steps)| ==> Answers(steps)[i].peer in Sends(steps)
  {
    if steps != [] {
      AnswersWereSent(steps[..|steps| - 1]);
    }
  }

  /** However sends and answers interleave, the round leaves the leader as if every
      request had gone out before the first answer came in. */
  lemma {:induction false} AnyOrderIsOne(r: Raft, newIndex: int, steps: seq<RoundStep>)
    requires Ordered(steps)
    ensures RoundAll(r, newIndex, steps) == HandleAll(ContactAll(r, Sends(steps)), newIndex, Answers(steps))
  {
    if steps != [] {
      var n := |steps| - 1;
      var front := steps[..n];
      AnyOrderIsOne(r, newIndex, front);
      if steps[n].Sent? {
        AnswersWereSent(front);
        ContactAllFrame(r, Sends(front));
        assert Sends(steps)[..|Sends(front)|] == Sends(front);
        assert Answers(steps) == Answers(front);
        ContactCommutes(ContactAll(r, Sends(front)), newIndex, Answers(front), steps[n].peer);
      } else {
        assert Sends(steps) == Sends(front);
        assert Answers(steps)[..|Answers(front)|] == Answers(front);
      }
    }
  }

  /** What contacting some peers records depends on which they are, not on their order. */
  lemma {:induction false} ContactAllIs(r: Raft, peers: seq<string>)
    ensures var r' := ContactAll(r, peers);
            && r' == r.(nextIndex := r'.nextIndex, matchIndex := r'.matchIndex)
            && (forall p :: p in r'.nextIndex <==> p in r.nextIndex || p in peers)
            && (forall p :: p in r'.nextIndex ==> r'.nextIndex[p] == NextFor(r, p))
            && (forall p :: p in r'.matchIndex <==> p in r.matchIndex || (p in peers && p !in r.nextIndex))
            && (forall p :: p in r'.matchIndex ==>
                  r'.matchIndex[p] == if p in peers && p !in r.nextIndex then 0 else r.matchIndex[p])
  {
    if peers != [] {
      var n := |peers| - 1;
      ContactAllIs(r, peers[..n]);
      assert peers == peers[..n] + [peers[n]];
    }
  }

  lemma {:induction false} ContactAnyOrder(r: Raft, a: seq<string>, b: seq<string>)
    requires multiset(a) == multiset(b)
    ensures ContactAll(r, a) == ContactAll(r, b)
  {
    ContactAllIs(r, a);
    ContactAllIs(r, b);
    forall p ensures p in a <==> p in b {
      assert p in a <==> p in multiset(a);
      assert p in b <==> p in multiset(b);
    }
    assert ContactAll(r, a).nextIndex == ContactAll(r, b).nextIndex;
    assert ContactAll(r, a).matchIndex == ContactAll(r, b).matchIndex;
  }

  /** One step more of a round. */
  lemma {:induction false} RoundNext(r: Raft, newIndex: int, steps: seq<RoundStep>, i: nat)
    requires i < |steps|
    ensures var front, now := steps[..i], RoundAll(r, newIndex, steps[..i]);
            var more := RoundRequests(r, newIndex, steps[..i + 1]);
            match steps[i]
            case Sent(peer) =>
              && RoundAll(r, newIndex, steps[..i + 1]) == Contact(now, peer)
              && more == RoundRequests(r, newIndex, front) + [RequestTo(now, peer, newIndex)]
              && Answers(steps[..i + 1]) == Answers(front)
            case Answered(Arrival(peer, reply)) =>
              && RoundAll(r, newIndex, steps[..i + 1]) == HandleReply(now, peer, newIndex, reply)
              && more == RoundRequests(r, newIndex, front)
              && Successes(Answers(steps[..i + 1])) == Successes(Answers(front)) + if reply.success then 1 else 0
  {
    assert steps[..i + 1][..i] == steps[..i];
    if steps[i].Answered? {
      var answers := Answers(steps[..i]) + [steps[i].arrival];
      assert answers[..|answers| - 1] == Answers(steps[..i]);
    }
  }

  lemma {:induction false} SilentNext(r: Raft, newIndex: int, arrivals: seq<Arrival>, peer: string)
    requires Silent(arrivals, peer)
    ensures NextFor(HandleAll(r, newIndex, arrivals), peer) == NextFor(r, peer)
  {
    if arrivals != [] {
      var n := |arrivals| - 1;
      SilentNext(r, newIndex, arrivals[..n], peer);
      HandleAllFrame(r, newIndex, arrivals[..n]);
    }
  }

  /** And a request that goes out in the middle differs from the one the sequential
      round builds in nothing but its term, which is the leader's at that moment. */
  lemma {:induction false} RequestAmid(r: Raft, newIndex: int, steps: seq<RoundStep>, peer: string)
    requires Ordered(steps) && peer !in Sends(steps)
    ensures var now := RoundAll(r, newIndex, steps);
            && now.currentTerm >= r.currentTerm
            && RequestTo(now, peer, newIndex)
            == RequestTo(ContactAll(r, Sends(steps)), peer, newIndex).(term := now.currentTerm)
  {
    AnyOrderIsOne(r, newIndex, steps);
    AnswersWereSent(steps);
    var r1 := ContactAll(r, Sends(steps));
    ContactAllFrame(r, Sends(steps));
    HandleAllFrame(r1, newIndex, Answers(steps));
    SilentNext(r1, newIndex, Answers(steps), peer);
  }

  // ---------- The object ----------

  class KvServer {
    const raft: RaftState
    const kv: StateMachine
    var master: bool

    constructor (raft: RaftState, kv: StateMachine, master: bool)
      ensures this.raft == raft && this.kv == kv && this.master == master
    {
      this.raft, this.kv, this.master := raft, kv, master;
    }

    function View(): Server
      reads this, raft, kv
    {
      Server(raft.View(), kv.View(), master)
    }

    method Set(json: JsonDecoder, key: string, value: string, steps: seq<RoundStep>) returns (success: bool)
      requires raft.lastApplied >= 0 && Ordered(steps) && Covers(raft.peers, steps)
      modifies raft, kv
      ensures (View(), success) == Write(json, old(View()), Put(key, value), Answers(steps))
    {
      if !master {
        return false;
      }
      var lastIndex := raft.GetLastLogIndex();
      var nextIndex := lastIndex + 1;
      if nextIndex < 1 {
        nextIndex := 1;
      }
      var entry := raft.Append(LogEntry(raft.currentTerm, nextIndex, PrintSet(key, value)));
      ghost var before := old(View());
      assert entry.index == Max(LastIndex(before.raft.logs) + 1, 1);
      assert entry == LogEntry(before.raft.currentTerm, entry.index, Print(Put(key, value)));
      assert View() == before.(raft := before.raft.(logs := AppendLog(before.raft.logs, entry)));
      var out := ReplicateLogs(json, entry.index, steps);
      if out.error.Some? {
        return false;
      }
      if out.commit < entry.index {
        return false;
      }
      kv.Set(key, value);
      success := true;
    }

    method Delete(json: JsonDecoder, key: string, steps: seq<RoundStep>) returns (success: bool)
      requires raft.lastApplied >= 0 && Ordered(steps) && Covers(raft.peers, steps)
      modifies raft, kv
      ensures (View(), success) == Write(json, old(View()), Remove(key), Answers(steps))
    {
      if !master {
        return false;
      }
      var lastIndex := raft.GetLastLogIndex();
      var nextIndex := lastIndex + 1;
      if nextIndex < 1 {
        nextIndex := 1;
      }
      var entry := raft.Append(LogEntry(raft.currentTerm, nextIndex, PrintDelete(key)));
      ghost var before := old(View());
      assert entry.index == Max(LastIndex(before.raft.logs) + 1, 1);
      assert entry == LogEntry(before.raft.currentTerm, entry.index, Print(Remove(key)));
      assert View() == before.(raft := before.raft.(logs := AppendLog(before.raft.logs, entry)));
      var out := ReplicateLogs(json, entry.index, steps);
      if out.error.Some? {
        return false;
      }
      if out.commit < entry.index {
        return false;
      }
      kv.Delete(key);
      success := true;
    }

    method Get(key: string) returns (success: bool, found: bool, value: string)
      ensures success == master
      ensures found == (master && key in kv.data)
      ensures value == if !master then "" else if key in kv.data then kv.data[key] else "(nil)"
    {
      if !master {
        return false, false, "";
      }
      value, found := kv.Get(key);
      success := true;
      if !found {
        value := "(nil)";
      }
    }

    method ReplicateLogs(json: JsonDecoder, index: int, steps: seq<RoundStep>) returns (out: Outcome)
      requires raft.lastApplied >= 0 && Ordered(steps) && Covers(raft.peers, steps)
      modifies raft, kv
      ensures (View(), out) == Replicate(json, old(View()), index, Answers(steps))
    {
      if !master {
        return Outcome(-1, None);
      }
      if |raft.peers| == 0 {
        out := CommitLog(json, index);
        return;
      }
      var requests, count := PreCommit(index, steps);
      if count >= |raft.peers| / 2 + 1 {
        out := CommitLog(json, index);
        return;
      }
      out := Outcome(-1, None);
    }

    /** The round: the goroutines' steps in the order in which they happen. */
    method PreCommit(index: int, steps: seq<RoundStep>) returns (requests: seq<AppendRequest>, count: nat)
      requires Ordered(steps) && Covers(raft.peers, steps)
      modifies raft
      ensures raft.View() == HandleAll(ContactAll(old(raft.View()), old(raft.peers)), index, Answers(steps))
      ensures SameButPeers(old(raft.View()), raft.View())
      ensures requests == RoundRequests(old(raft.View()), index, steps)
      ensures count == 1 + Successes(Answers(steps))
    {
      requests, count := [], 1;
      ghost var start := raft.View();
      for i := 0 to |steps|
        invariant raft.View() == RoundAll(start, index, steps[..i])
        invariant requests == RoundRequests(start, index, steps[..i])
        invariant count == 1 + Successes(Answers(steps[..i]))
      {
        RoundNext(start, index, steps, i);
        match steps[i] {
          case Sent(peer) =>
            var request := BuildRequest(peer, index);
            requests := requests + [request];
          case Answered(arrival) =>
            HandleAnswer(index, arrival);
            if arrival.reply.success {
              count := count + 1;
            }
        }
      }
      assert steps[..|steps|] == steps;
      AnyOrderIsOne(start, index, steps);
      ContactAnyOrder(start, Sends(steps), start.peers);
      ContactAllFrame(start, start.peers);
      HandleAllFrame(ContactAll(start, start.peers), index, Answers(steps));
    }

    method BuildRequest(peer: string, index: int) returns (request: AppendRequest)
      modifies raft
      ensures raft.View() == Contact(old(raft.View()), peer)
      ensures request == RequestTo(old(raft.View()), peer, index)
    {
      var next;
      if peer in raft.nextIndex {
        next := raft.nextIndex[peer];
      } else {
        next := if |raft.logs| == 0 then 1 else raft.logs[|raft.logs| - 1].index;
        raft.nextIndex := raft.nextIndex[peer := next];
        raft.matchIndex := raft.matchIndex[peer := 0];
      }
      var entries := EntriesToSend(next, index);
      var prevIndex := next - 1;
      var prevTerm := 0;
      if prevIndex > 0 {
        if prevIndex - 1 < |raft.logs| {
          prevTerm := raft.logs[prevIndex - 1].term;
        }
      }
      request := AppendRequest(raft.currentTerm, prevIndex, prevTerm, Commands(entries), raft.commitIndex);
    }

    method EntriesToSend(from: int, to: int) returns (entries: seq<LogEntry>)
      ensures entries == Slice(raft.logs, from, to)
    {
      entries := [];
      var i := from;
      while i <= to
        invariant i >= from && (i == from || i <= to + 1)
        invariant entries == Slice(raft.logs, from, i - 1)
      {
        var pos := i - 1;
        if pos >= 0 && pos < |raft.logs| {
          entries := entries + [raft.logs[pos]];
        }
        i := i + 1;
      }
    }

    /** The answering half of doPreCommit, for one peer. */
    method HandleAnswer(index: int, arrival: Arrival)
      modifies raft
      ensures raft.View() == HandleReply(old(raft.View()), arrival.peer, index, arrival.reply)
    {
      var Arrival(peer, reply) := arrival;
      if reply.success {
        raft.matchIndex := raft.matchIndex[peer := index];
        raft.nextIndex := raft.nextIndex[peer := index + 1];
      } else if reply.term > raft.currentTerm {
        raft.currentTerm := reply.term;
        raft.votedFor := NOBODY;
        raft.isMaster := false;
      } else {
        var next := if peer in raft.nextIndex then raft.nextIndex[peer] else 0;
        raft.nextIndex := raft.nextIndex[peer := Max(1, next - 1)];
      }
    }

    method CommitLog(json: JsonDecoder, index: int) returns (out: Outcome)
      requires raft.lastApplied >= 0
      modifies raft, kv
      ensures (View(), out) == Commit(json, old(View()), index)
    {
      raft.commitIndex := index;
      var error := raft.ApplyCommittedLogs(json, kv);
      if error.Some? {
        return Outcome(-1, error);
      }
      out := Outcome(raft.commitIndex, None);
    }
  }
}
