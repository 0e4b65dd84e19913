/** A joining node asks the leader for the entries past its own last index, applies
    them and appends them to its log. */
module JoinSync {
  import opened RaftTypes
  import opened CommandCodec
  import opened KvStore
  import opened LeaderState
  import opened Replication
  import opened LeaderStore
  import opened TailFold
  import opened Recovery
  import Folding

  datatype SyncReply = SyncReply(success: bool, entries: seq<LogEntry>)

  // ---------- Leader side ----------

  /** The entries whose index exceeds the requester's last one. */
  function Past(logs: seq<LogEntry>, lastIndex: int): seq<LogEntry> {
    if logs == [] then []
    else
      var n := |logs| - 1;
      Past(logs[..n], lastIndex) + if logs[n].index > lastIndex then [logs[n]] else []
  }

  function Answer(leader: Server, lastIndex: int): SyncReply {
    if leader.master then SyncReply(true, Past(leader.raft.logs, lastIndex)) else SyncReply(false, [])
  }

  method SyncLogs(server: KvServer, lastIndex: int) returns (reply: SyncReply)
    ensures reply == Answer(server.View(), lastIndex)
  {
    if !server.master {
      return SyncReply(false, []);
    }
    var logs := server.raft.logs;
    var entries := [];
    for i := 0 to |logs|
      invariant entries == Past(logs[..i], lastIndex)
    {
      assert logs[..i + 1][..i] == logs[..i];
      if logs[i].index > lastIndex {
        entries := entries + [logs[i]];
      }
    }
    assert logs[..|logs|] == logs;
    reply := SyncReply(true, entries);
  }

  lemma {:induction false} PastIsSuffix(logs: seq<LogEntry>, lastIndex: int)
    requires Indexed(logs) && lastIndex >= 0
    ensures Past(logs, lastIndex) == if lastIndex <= |logs| then logs[lastIndex..] else []
  {
    if logs != [] {
      var n := |logs| - 1;
      PastIsSuffix(logs[..n], lastIndex);
      if lastIndex <= n {
        assert logs[..n][lastIndex..] + [logs[n]] == logs[lastIndex..];
      }
    }
  }

  // ---------- Joiner side ----------

  /** Apply each entry in turn; one that is refused is only logged. */
  function ApplyEach(json: JsonDecoder, entries: seq<LogEntry>, st: Store): Store {
    if entries == [] then st else ApplyEach(json, entries[1..], ApplyEntry(json, st, entries[0]).0)
  }

  function Join(json: JsonDecoder, s: Server, reply: SyncReply): Server {
    if s.raft.isMaster || !reply.success || reply.entries == [] then s
    else
      var latest := reply.entries[|reply.entries| - 1].term;
      var r := if latest > s.raft.currentTerm
               then s.raft.(currentTerm := latest, votedFor := LeaderState.NOBODY)
               else s.raft;
      s.(raft := r.(logs := s.raft.logs + reply.entries), store := ApplyEach(json, reply.entries, s.store))
  }

  /** SyncLogsWithLeader once the reply is in; `ok` is false where it returns an error. */
  method SyncLogsWithLeader(json: JsonDecoder, server: KvServer, reply: SyncReply) returns (ok: bool)
    modifies server.raft, server.kv
    ensures server.View() == Join(json, old(server.View()), reply)
    ensures ok == (old(server.raft.isMaster) || reply.success)
  {
    var raft, kv := server.raft, server.kv;
    if raft.isMaster {
      return true;
    }
    if !reply.success {
      return false;
    }
    var entries := reply.entries;
    if |entries| == 0 {
      return true;
    }
    var latest := entries[|entries| - 1].term;
    if latest > raft.currentTerm {
      raft.currentTerm := latest;
      raft.votedFor := LeaderState.NOBODY;
    }
    var added := [];
    ghost var r, st := raft.View(), kv.View();
    for i := 0 to |entries|
      invariant added == entries[..i]
      invariant raft.View() == r
      invariant ApplyEach(json, entries, st) == ApplyEach(json, entries[i..], kv.View())
    {
      assert entries[i..][1..] == entries[i + 1..];
      added := added + [entries[i]];
      var _ := kv.ApplyLog(json, entries[i]);
    }
    raft.logs := raft.logs + added;
    ok := true;
  }

  /** Performing a first command and replaying the rest is replaying all. */
  lemma ReplayFirst(json: JsonDecoder, data: Data, entries: seq<LogEntry>)
    requires entries != []
    ensures Replay(json, data, Commands(entries)) ==
        Replay(json, Perform(json, data, entries[0].command), Commands(entries[1..]))
  {
    assert Commands(entries) == [entries[0].command] + Commands(entries[1..]);
    ReplayConcat(json, data, [entries[0].command], Commands(entries[1..]));
    ReplayOne(json, data, entries[0].command);
  }

  lemma AppliedFirst(json: JsonDecoder, e: LogEntry, st: Store)
    requires st.lastAppliedIndex < e.index
    ensures var st' := ApplyEntry(json, st, e).0;
            && st'.data == Perform(json, st.data, e.command) && st'.lastAppliedIndex <= e.index
            && (Parses(json, e.command) ==> st'.lastAppliedIndex == e.index)
  {
  }

  lemma {:induction false} ApplyEachReplays(json: JsonDecoder, entries: seq<LogEntry>, st: Store, from: int)
    requires Consecutive(entries, from) && st.lastAppliedIndex <= from
    ensures var st' := ApplyEach(json, entries, st);
            && st'.data == Replay(json, st.data, Commands(entries))
            && st'.lastAppliedIndex <= from + |entries|
            && (entries != [] && Parses(json, entries[|entries| - 1].command) ==>
                  st'.lastAppliedIndex == from + |entries|)
    decreases |entries|
  {
    if entries == [] {
      assert Commands(entries) == [];
    } else {
      AppliedFirst(json, entries[0], st);
      ApplyEachReplays(json, entries[1..], ApplyEntry(json, st, entries[0]).0, from + 1);
      ReplayFirst(json, st.data, entries);
    }
  }

  lemma {:induction false} MarkRises(json: JsonDecoder, entries: seq<LogEntry>, st: Store)
    ensures ApplyEach(json, entries, st).lastAppliedIndex >= st.lastAppliedIndex
    decreases |entries|
  {
    if entries != [] {
      MarkRises(json, entries[1..], ApplyEntry(json, st, entries[0]).0);
    }
  }

  lemma TakeNext(json: JsonDecoder, data: Data, c: string, rest: seq<string>, k: nat)
    requires k <= |rest|
    ensures Replay(json, data, ([c] + rest)[..k + 1]) == Replay(json, Perform(json, data, c), rest[..k])
  {
    assert ([c] + rest)[..k + 1] == [c] + rest[..k];
    ReplayConcat(json, data, [c], rest[..k]);
    ReplayOne(json, data, c);
  }

  /** The map is already the replay of the entries up to the mark: those past it did not parse. */
  lemma {:induction false} ApplyEachMark(json: JsonDecoder, entries: seq<LogEntry>, st: Store, from: int)
    requires Consecutive(entries, from) && st.lastAppliedIndex <= from
    ensures var st' := ApplyEach(json, entries, st);
            && (st'.lastAppliedIndex <= from ==> st' == st)
            && (st'.lastAppliedIndex > from ==>
                  && st'.lastAppliedIndex - from <= |entries|
                  && st'.data == Replay(json, st.data, Commands(entries)[..st'.lastAppliedIndex - from]))
    decreases |entries|
  {
    if entries != [] {
      var c, rest := entries[0].command, entries[1..];
      var st1 := ApplyEntry(json, st, entries[0]).0;
      ApplyEachMark(json, rest, st1, from + 1);
      assert Commands(entries) == [c] + Commands(rest);
      var st' := ApplyEach(json, rest, st1);
      if st'.lastAppliedIndex > from + 1 {
        TakeNext(json, st.data, c, Commands(rest), st'.lastAppliedIndex - from - 1);
      } else if st'.lastAppliedIndex == from + 1 {
        TakeNext(json, st.data, c, Commands(rest), 0);
        assert Commands(rest)[..0] == [];
      }
    }
  }

  // ---------- The exchange ----------

  function Exchange(json: JsonDecoder, joiner: Server, leader: Server): Server {
    Join(json, joiner, Answer(leader, LastIndex(joiner.raft.logs)))
  }

  /** The entries an exchange brings. */
  function Brought(joiner: Server, leader: Server): seq<LogEntry> {
    var n := |joiner.raft.logs|;
    if n <= |leader.raft.logs| then leader.raft.logs[n..] else []
  }

  ghost predicate Joinable(joiner: Server, leader: Server) {
    Indexed(leader.raft.logs) && Indexed(joiner.raft.logs) && leader.master && !joiner.raft.isMaster
  }

  /** A node that is not master refuses, and a refused joiner, or one that is master itself,
      stays as it was. */
  lemma RefusedStays(json: JsonDecoder, joiner: Server, leader: Server)
    ensures Answer(leader, LastIndex(joiner.raft.logs)).success <==> leader.master
    ensures !leader.master || joiner.raft.isMaster ==> Exchange(json, joiner, leader) == joiner
  {
  }

  /** No exchange touches indices, peers or flags. */
  lemma ExchangeLeaves(json: JsonDecoder, joiner: Server, leader: Server)
    ensures var s := Exchange(json, joiner, leader);
            && s.master == joiner.master && s.raft.isMaster == joiner.raft.isMaster && s.raft.peers == joiner.raft.peers
            && s.raft.commitIndex == joiner.raft.commitIndex && s.raft.lastApplied == joiner.raft.lastApplied
            && s.raft.nextIndex == joiner.raft.nextIndex && s.raft.matchIndex == joiner.raft.matchIndex
  {
  }

  lemma ExchangeIsJoin(json: JsonDecoder, joiner: Server, leader: Server)
    requires Joinable(joiner, leader)
    ensures Exchange(json, joiner, leader) == Join(json, joiner, SyncReply(true, Brought(joiner, leader)))
  {
    PastIsSuffix(leader.raft.logs, |joiner.raft.logs|);
  }

  lemma ExchangeLogs(json: JsonDecoder, joiner: Server, leader: Server)
    requires Joinable(joiner, leader)
    ensures Exchange(json, joiner, leader).raft.logs == joiner.raft.logs + Brought(joiner, leader)
    ensures Brought(joiner, leader) == [] ==> Exchange(json, joiner, leader) == joiner
  {
    ExchangeIsJoin(json, joiner, leader);
  }

  lemma ExchangeStores(json: JsonDecoder, joiner: Server, leader: Server)
    requires Joinable(joiner, leader)
    ensures Exchange(json, joiner, leader).store == ApplyEach(json, Brought(joiner, leader), joiner.store)
  {
    ExchangeIsJoin(json, joiner, leader);
  }

  lemma ExchangeTerms(json: JsonDecoder, joiner: Server, leader: Server)
    requires Joinable(joiner, leader)
    ensures var entries := Brought(joiner, leader);
            var r := Exchange(json, joiner, leader).raft;
            && r.isMaster == joiner.raft.isMaster
            && r.currentTerm == (if entries == [] then joiner.raft.currentTerm
                                 else Max(joiner.raft.currentTerm, entries[|entries| - 1].term))
            && r.votedFor == (if r.currentTerm == joiner.raft.currentTerm then joiner.raft.votedFor
                              else LeaderState.NOBODY)
  {
    ExchangeIsJoin(json, joiner, leader);
  }

  /** One exchange gives the joiner the leader's whole log if and only if its own
      log was a prefix of it: the leader never looks at the joiner's last term. */
  lemma ExchangeCopiesLog(json: JsonDecoder, joiner: Server, leader: Server)
    requires Indexed(leader.raft.logs) && Indexed(joiner.raft.logs) && leader.master && !joiner.raft.isMaster
    ensures Exchange(json, joiner, leader).raft.logs == leader.raft.logs <==> joiner.raft.logs <= leader.raft.logs
  {
    ExchangeLogs(json, joiner, leader);
    var j, l := joiner.raft.logs, leader.raft.logs;
    if j <= l {
      assert l == j + l[|j|..];
    } else if |j| <= |l| {
      assert (j + l[|j|..])[..|j|] == j;
    }
  }

  lemma {:induction false} SuffixReplays(json: JsonDecoder, j: seq<LogEntry>, l: seq<LogEntry>, st: Store)
    requires Indexed(l) && j <= l && st.lastAppliedIndex <= |j|
    ensures var st' := ApplyEach(json, l[|j|..], st);
            && st'.data == Replay(json, st.data, Commands(l[|j|..])) && st'.lastAppliedIndex <= |l|
            && (st.data == Replay(json, map[], Commands(j)) ==> st'.data == Replay(json, map[], Commands(l)))
  {
    ApplyEachReplays(json, l[|j|..], st, |j|);
    assert Commands(l) == Commands(j) + Commands(l[|j|..]);
    ReplayConcat(json, map[], Commands(j), Commands(l[|j|..]));
  }

  lemma SecondExchangeIdle(json: JsonDecoder, s: Server, leader: Server)
    requires Indexed(leader.raft.logs) && leader.master && !s.raft.isMaster && s.raft.logs == leader.raft.logs
    ensures Exchange(json, s, leader) == s
  {
    ExchangeLogs(json, s, leader);
  }

  /** From a prefix of the leader's log, whatever map it has, one exchange gives the joiner
      that log, performs on its map exactly the commands it was missing, and leaves it the
      larger of its own term and the last received entry's; a second exchange changes
      nothing.  A map that was the replay of the joiner's log becomes the leader's. */
  lemma JoinAgrees(json: JsonDecoder, joiner: Server, leader: Server)
    requires Indexed(leader.raft.logs) && leader.master && !joiner.raft.isMaster
    requires joiner.raft.logs <= leader.raft.logs && joiner.store.lastAppliedIndex <= |joiner.raft.logs|
    ensures var s := Exchange(json, joiner, leader);
            && s.raft.logs == leader.raft.logs && s.store.lastAppliedIndex <= |leader.raft.logs|
            && s.store.data == Replay(json, joiner.store.data, Commands(leader.raft.logs[|joiner.raft.logs|..]))
            && (joiner.store.data == Replay(json, map[], Commands(joiner.raft.logs)) ==>
                  s.store.data == Replay(json, map[], Commands(leader.raft.logs)))
            && s.raft.currentTerm == (if joiner.raft.logs == leader.raft.logs then joiner.raft.currentTerm
                                      else Max(joiner.raft.currentTerm, LastOf(leader.raft.logs).term))
            && Exchange(json, s, leader) == s
  {
    ExchangeStores(json, joiner, leader);
    ExchangeTerms(json, joiner, leader);
    ExchangeCopiesLog(json, joiner, leader);
    SuffixReplays(json, joiner.raft.logs, leader.raft.logs, joiner.store);
    SecondExchangeIdle(json, Exchange(json, joiner, leader), leader);
  }

  // ---------- A node that comes back and joins ----------

  /** Starting as non-master and then synchronising with the leader: what JoinCluster does
      right after recoverFromStorage. */
  function Rejoin(json: JsonDecoder, s: Server, leader: Server): Server {
    Exchange(json, Restart(json, s, false), leader)
  }

  /** The joining node's state file holds the first entries of the leader's log, possibly none. */
  ghost predicate Rejoins(s: Server, leader: Server) {
    Sound(s) && Indexed(leader.raft.logs) && leader.master && s.raft.logs <= leader.raft.logs
  }

  /** The recovered log is not replayed, so only what the leader sends is performed. */
  lemma RejoinReplays(json: JsonDecoder, s: Server, leader: Server)
    requires Rejoins(s, leader)
    ensures var joined := Rejoin(json, s, leader);
            && joined.raft.logs == leader.raft.logs && joined.raft.lastApplied == 0
            && joined.store == ApplyEach(json, leader.raft.logs[|s.raft.logs|..], EMPTY_STORE)
            && joined.store.data == Replay(json, map[], Commands(leader.raft.logs[|s.raft.logs|..]))
  {
    RestartKeepsLog(json, s, false);
    JoinAgrees(json, Restart(json, s, false), leader);
    ExchangeStores(json, Restart(json, s, false), leader);
    ExchangeIsJoin(json, Restart(json, s, false), leader);
  }

  lemma TailReplays(json: JsonDecoder, logs: seq<LogEntry>, ops: seq<Op>, k: nat)
    requires LogsOps(logs, ops) && k <= |ops|
    ensures Replay(json, map[], Commands(logs[k..])) == Folding.All(OpEffect, map[], ops[k..])
  {
    LogPerforms(json, logs, ops, k);
  }

  /** Its map is then the leader's replay if and only if none of the operations on its
      disk would show: each leaves nothing or has a later one on its key.  A node that
      joins with an empty log always agrees. */
  lemma {:induction false} JoinAgreesIff(json: JsonDecoder, s: Server, leader: Server, ops: seq<Op>)
    requires Rejoins(s, leader) && LogsOps(leader.raft.logs, ops)
    ensures var data := Rejoin(json, s, leader).store.data;
            && data == Folding.All(OpEffect, map[], ops[|s.raft.logs|..])
            && (data == Replay(json, map[], Commands(leader.raft.logs)) <==> NothingLost(ops, |s.raft.logs|))
  {
    RejoinReplays(json, s, leader);
    TailReplays(json, leader.raft.logs, ops, |s.raft.logs|);
    TailReplays(json, leader.raft.logs, ops, 0);
    assert leader.raft.logs[0..] == leader.raft.logs && ops[0..] == ops;
    DropIff(ops, |s.raft.logs|);
  }

  /** A node with the leader's whole log on disk joins and has that log and an empty map,
      whatever was written. */
  lemma RejoinsEmpty(json: JsonDecoder, s: Server, leader: Server)
    requires Rejoins(s, leader) && s.raft.logs == leader.raft.logs
    ensures var joined := Rejoin(json, s, leader);
            joined.raft.logs == leader.raft.logs && joined.store == EMPTY_STORE
  {
    RejoinReplays(json, s, leader);
  }

  // ---------- And is elected ----------

  lemma LastParses(json: JsonDecoder, logs: seq<LogEntry>, ops: seq<Op>)
    requires LogsOps(logs, ops) && ops != []
    ensures Parses(json, logs[|logs| - 1].command)
  {
    CleanPerforms(json, map[], ops[|ops| - 1]);
  }

  lemma {:induction false} TailMark(json: JsonDecoder, logs: seq<LogEntry>, k: nat)
    requires Indexed(logs) && k < |logs| && Parses(json, logs[|logs| - 1].command)
    ensures ApplyEach(json, logs[k..], EMPTY_STORE).lastAppliedIndex == |logs|
  {
    ApplyEachReplays(json, logs[k..], EMPTY_STORE, k);
  }

  lemma RejoinMark(json: JsonDecoder, s: Server, leader: Server, ops: seq<Op>)
    requires Rejoins(s, leader) && LogsOps(leader.raft.logs, ops)
    ensures Rejoin(json, s, leader).store.lastAppliedIndex == if |s.raft.logs| < |ops| then |ops| else 0
  {
    RejoinReplays(json, s, leader);
    if |s.raft.logs| < |ops| {
      LastParses(json, leader.raft.logs, ops);
      TailMark(json, leader.raft.logs, |s.raft.logs|);
    }
  }

  /** Such a node, once it is the master, refines a simple map like any leader: so far the
      operations past its disk log are applied, and so it goes on in every life, although
      its store is ahead of its lastApplied. */
  lemma {:induction false} JoinedLeaderRefines(json: JsonDecoder, s: Server, leader: Server, ops: seq<Op>,
        events: seq<Event>)
    requires Rejoins(s, leader) && LogsOps(leader.raft.logs, ops) && AllColonFree(events)
    ensures var s1 := Rejoin(json, s, leader).(master := true);
            var h1 := History(ops, Range(|s.raft.logs| + 1, |ops|), {});
            && Refines(s1, h1)
            && Refines(LiveAll(json, s1, events), LiveRecordAll(json, s1, h1, events))
  {
    var s1 := Rejoin(json, s, leader).(master := true);
    var k := |s.raft.logs|;
    RejoinReplays(json, s, leader);
    RejoinMark(json, s, leader, ops);
    TailReplays(json, leader.raft.logs, ops, k);
    TailFolds(ops, k);
    RangeWithin(k, |ops|);
    LifeRefines(json, s1, History(ops, Range(k + 1, |ops|), {}), events);
  }
}
