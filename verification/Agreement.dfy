/** One simple map: the leader's live state, the state a restart rebuilds and, one write
    behind, a follower's state are the fold of the operations written; a joiner's state
    is where its own disk log hides nothing, exactly then. */
module Agreement {
  import opened RaftTypes
  import opened CommandCodec
  import opened KvStore
  import opened LeaderState
  import opened Replication
  import opened LeaderStore
  import Folding
  import Node = RaftNode
  import Recovery
  import JoinSync
  import Shipping
  import FollowerLog
  import F = FollowerReplica
  import TailFold

  /** Strings the follower's decoder leaves as they are: what is not JSON stands for itself. */
  ghost predicate Plain(decode: Node.EntryDecoder, commands: seq<string>) {
    forall i :: 0 <= i < |commands| ==> Node.Stored(decode, commands[i]) == commands[i]
  }

  ghost predicate AllParse(json: JsonDecoder, commands: seq<string>) {
    forall i :: 0 <= i < |commands| ==> Parses(json, commands[i])
  }

  // ---------- A follower catches up ----------

  /** No request told the follower of a commit index that reaches the end of its own
      entries; Shipping.ShipsBehind shows that a leader sends no other. */
  ghost predicate AllBehind(events: seq<F.Event>) {
    forall i :: 0 <= i < |events| && events[i].Ship? ==> events[i].leaderCommit < events[i].count
  }

  lemma {:induction false} SeenBehind(leader: seq<string>, seen: int, events: seq<F.Event>)
    requires F.AllPossible(leader, events) && AllBehind(events) && seen <= Max(0, |leader| - 1)
    ensures F.SeenAll(seen, events) <= Max(0, |leader| - 1)
    decreases |events|
  {
    if events != [] {
      assert F.Possible(leader, events[0]);
      SeenBehind(leader, F.Seen(seen, events[0]), events[1..]);
    }
  }

  /** One request with the leader's whole log, of a term the follower accepts, brings its
      log level and its commit index to the leader's. */
  lemma ShipLevels(decode: Node.EntryDecoder, json: JsonDecoder, leader: seq<string>, start: Store, seen: int,
        f: F.Machine, term: int, commit: int)
    requires F.Replica(json, F.StoredAll(decode, leader), start, seen, f)
    requires leader != [] && term >= f.node.currentTerm && seen <= commit <= |leader|
    ensures var f' := F.React(decode, json, leader, f, F.Ship(term, |leader|, commit));
            && F.Replica(json, F.StoredAll(decode, leader), start, commit, f')
            && |f'.node.log| == |leader| && f'.node.commitIndex == commit && f'.node.lastApplied == f.node.lastApplied
  {
    var e := F.Ship(term, |leader|, commit);
    F.ReactKeeps(decode, json, leader, start, seen, f, e);
    FollowerLog.AcceptedWhen(decode, f.node, F.ShipRequest(leader, e));
    FollowerLog.FullRequest(decode, f.node, F.ShipRequest(leader, e));
    F.AppendKeepsMarks(decode, f.node, F.ShipRequest(leader, e));
  }

  lemma PrefixParses(json: JsonDecoder, log: seq<LogEntry>, commands: seq<string>, commit: nat)
    requires F.PrefixOf(log, commands) && commit <= |log| && AllParse(json, commands[..commit])
    ensures forall i :: 0 <= i < commit ==> Parses(json, log[i].command)
  {
    forall i | 0 <= i < commit ensures Parses(json, log[i].command) {
      assert commands[..commit][i] == log[i].command;
    }
  }

  /** An apply pass over entries that parse runs to the commit index. */
  lemma RunsToCommit(json: JsonDecoder, n: Node.Node, st: Store, commit: nat)
    requires Indexed(n.log) && 0 <= n.lastApplied <= commit <= |n.log| && st.lastAppliedIndex <= commit
    requires n.commitIndex == commit && forall i :: 0 <= i < commit ==> Parses(json, n.log[i].command)
    ensures Node.ApplyCommitted(json, n, st).0.lastApplied == commit
  {
    FollowerLog.AppliesUpTo(json, n, st);
  }

  /** One pass of the apply loop then runs exactly to that commit index, if what it meets parses. */
  lemma ApplyLevels(decode: Node.EntryDecoder, json: JsonDecoder, leader: seq<string>, start: Store, commit: nat,
        f: F.Machine)
    requires F.Replica(json, F.StoredAll(decode, leader), start, commit, f)
    requires start.lastAppliedIndex <= commit <= |leader|
    requires AllParse(json, F.StoredAll(decode, leader)[..commit])
    requires |f.node.log| == |leader| && f.node.commitIndex == commit
    ensures var f' := F.React(decode, json, leader, f, F.Apply);
            && f'.node.lastApplied == commit
            && f'.store.data == Replay(json, start.data, F.StoredAll(decode, leader)[start.lastAppliedIndex..commit])
  {
    F.ReactKeeps(decode, json, leader, start, commit, f, F.Apply);
    PrefixParses(json, f.node.log, F.StoredAll(decode, leader), commit);
    RunsToCommit(json, f.node, f.store, commit);
  }

  /** A follower, whatever it lived through and from whatever store, after one accepted
      request with the leader's whole log and one apply pass: it has performed every
      command from its store's first mark up to the request's commit index. */
  lemma {:induction false} CatchesUp(decode: Node.EntryDecoder, json: JsonDecoder, leader: seq<string>,
        o: F.Origin, life: seq<F.Event>, term: int, commit: nat)
    requires F.AllPossible(leader, life) && F.Admits(leader, o) && leader != []
    requires F.SeenAll(0, life) <= commit <= |leader| && o.store.lastAppliedIndex <= commit
    requires AllParse(json, F.StoredAll(decode, leader)[..commit])
    requires term >= F.Lived(decode, json, leader, o, life).node.currentTerm
    ensures var f := F.Lived(decode, json, leader, o, life);
            var f1 := F.React(decode, json, leader, f, F.Ship(term, |leader|, commit));
            && f1.node.lastApplied >= 0
            && (var f2 := F.React(decode, json, leader, f1, F.Apply);
                && f2.node.lastApplied == commit
                && f2.store.data == Replay(json, o.store.data,
                                           F.StoredAll(decode, leader)[o.store.lastAppliedIndex..commit]))
  {
    F.LivedReplica(decode, json, leader, o, life);
    var f := F.Lived(decode, json, leader, o, life);
    ShipLevels(decode, json, leader, o.store, F.SeenAll(0, life), f, term, commit);
    var f1 := F.React(decode, json, leader, f, F.Ship(term, |leader|, commit));
    ApplyLevels(decode, json, leader, o.store, commit, f1);
  }

  // ---------- The leader's log parses ----------

  lemma LogParses(json: JsonDecoder, logs: seq<LogEntry>, ops: seq<Op>)
    requires LogsOps(logs, ops)
    ensures AllParse(json, Commands(logs))
  {
    forall i | 0 <= i < |logs| ensures Parses(json, Commands(logs)[i]) { CleanPerforms(json, map[], ops[i]); }
  }

  lemma LiveLogs(json: JsonDecoder, s: Server, ops: seq<Op>, e: Recovery.Event)
    requires Recovery.Whole(json, s) && Recovery.Smooth(s.raft.peers, e) && LogsOps(s.raft.logs, ops)
    ensures var s1 := Recovery.Live(json, s, e);
            && Recovery.Whole(json, s1) && s1.raft.peers == s.raft.peers
            && LogsOps(s1.raft.logs, ops + Recovery.OpOf(e))
  {
    match e
    case Called(Update(op, arrivals)) => Recovery.WriteKeepsWhole(json, s, op, arrivals);
    case Called(_) =>
    case Restarted(_) => Recovery.RestartKeepsWhole(json, s);
  }

  /** The leader's log holds the operations written, in order. */
  lemma {:induction false} LifeLogs(json: JsonDecoder, s: Server, ops: seq<Op>, events: seq<Recovery.Event>)
    requires Recovery.Whole(json, s) && Recovery.AllSmooth(s.raft.peers, events) && LogsOps(s.raft.logs, ops)
    ensures LogsOps(Recovery.LiveAll(json, s, events).raft.logs, ops + Recovery.Ops(events))
    decreases |events|
  {
    if events != [] {
      var e := events[0];
      assert Recovery.Smooth(s.raft.peers, e);
      LiveLogs(json, s, ops, e);
      LifeLogs(json, Recovery.Live(json, s, e), ops + Recovery.OpOf(e), events[1..]);
      OpsFirst(ops, events);
    }
  }

  lemma {:induction false} OpsFirst(ops: seq<Op>, events: seq<Recovery.Event>)
    requires events != []
    ensures ops + Recovery.Ops(events) == (ops + Recovery.OpOf(events[0])) + Recovery.Ops(events[1..])
  {
  }

  // ---------- All together ----------

  ghost function LeaderAfter(json: JsonDecoder, peers: seq<string>, events: seq<Recovery.Event>): Server {
    Recovery.LiveAll(json, FreshLeader(peers, true), events)
  }

  lemma {:induction false} LeaderWhole(json: JsonDecoder, peers: seq<string>, events: seq<Recovery.Event>)
    requires Recovery.AllSmooth(peers, events)
    ensures var s := LeaderAfter(json, peers, events);
            && Recovery.Whole(json, s) && LogsOps(s.raft.logs, Recovery.Ops(events))
            && s.store.data == Folding.All(OpEffect, map[], Recovery.Ops(events))
  {
    assert Commands(FreshLeader(peers, true).raft.logs) == [];
    Recovery.LifePreserves(json, FreshLeader(peers, true), events);
    LifeLogs(json, FreshLeader(peers, true), [], events);
    assert [] + Recovery.Ops(events) == Recovery.Ops(events);
  }

  /** After any life of a leader whose writes were all acknowledged and colon-free, stops
      and starts included: its map and the map of one more restart are the fold of the
      operations written.  A node that joins with the first k of them in its state file
      gets the same log and the fold of the others: the same map if and only if none of
      those k would show, so always if it joins with an empty log. */
  lemma {:induction false} LeaderRestartAndJoinerAgree(json: JsonDecoder, peers: seq<string>,
        events: seq<Recovery.Event>, node: Server)
    requires Recovery.AllSmooth(peers, events)
    requires Sound(node) && node.raft.logs <= LeaderAfter(json, peers, events).raft.logs
    ensures var s, ops, k := LeaderAfter(json, peers, events), Recovery.Ops(events), |node.raft.logs|;
            var data := Folding.All(OpEffect, map[], ops);
            var joined := JoinSync.Rejoin(json, node, s);
            && s.store.data == data
            && Recovery.Restart(json, s, true).store.data == data
            && joined.raft.logs == s.raft.logs
            && k <= |ops| && joined.store.data == Folding.All(OpEffect, map[], ops[k..])
            && (joined.store.data == data <==> TailFold.NothingLost(ops, k))
  {
    LeaderWhole(json, peers, events);
    var s := LeaderAfter(json, peers, events);
    Recovery.RestartKeepsWhole(json, s);
    JoinSync.RejoinReplays(json, node, s);
    JoinSync.JoinAgreesIff(json, node, s, Recovery.Ops(events));
  }

  /** The leader in the middle of its next write, when it ships. */
  ghost function Writing(s: Server, op: Op): Raft {
    s.raft.(logs := s.raft.logs + [NewEntry(s, op)])
  }

  /** At next index 1 the request the leader builds ships its whole log, with a commit
      index that stops just before the entry being written. */
  lemma FullRequestIs(json: JsonDecoder, s: Server, op: Op, peer: string)
    requires Recovery.Whole(json, s) && Shipping.NextOk(s.raft) && NextFor(Writing(s, op), peer) == 1
    ensures var leader := Commands(Writing(s, op).logs);
            && |leader| == |s.raft.logs| + 1 && leader[..|s.raft.logs|] == Commands(s.raft.logs)
            && RequestTo(Writing(s, op), peer, |leader|)
            == F.ShipRequest(leader, F.Ship(s.raft.currentTerm, |leader|, |s.raft.logs|))
  {
    var leader := Commands(Writing(s, op).logs);
    Shipping.RequestShips(Writing(s, op), peer);
    assert Writing(s, op).logs[0..] == Writing(s, op).logs;
    assert leader[..|leader|] == leader;
  }

  /** Every request a leader builds at next index 1, at any point of its life, is a cut
      from the start of the log it will have later, and its commit index stops short of
      the cut: these are the requests a follower's life is made of. */
  lemma {:induction false} RequestsAreCuts(json: JsonDecoder, peers: seq<string>, master: bool,
        events: seq<Recovery.Event>, call: Call, peer: string, later: seq<Recovery.Event>)
    requires var s := Recovery.LiveAll(json, FreshLeader(peers, master), events);
             call.Update? && s.master && NextFor(Writing(s, call.op), peer) == 1
    ensures var s := Recovery.LiveAll(json, FreshLeader(peers, master), events);
            var count := |s.raft.logs| + 1;
            && Sound(Serve(json, s, call).0)
            && (var leader := Commands(Recovery.LiveAll(json, Serve(json, s, call).0, later).raft.logs);
                && count <= |leader| && s.raft.commitIndex < count
                && RequestTo(Writing(s, call.op), peer, count)
                == F.ShipRequest(leader, F.Ship(s.raft.currentTerm, count, s.raft.commitIndex)))
  {
    var s := Recovery.LiveAll(json, FreshLeader(peers, master), events);
    Shipping.LifeNext(json, FreshLeader(peers, master), events);
    Recovery.LifeCommits(json, FreshLeader(peers, master), events);
    ServeSound(json, s, call);
    WriteResult(json, s, call.op, call.arrivals);
    Recovery.LifeLogGrows(json, Serve(json, s, call).0, later);
    var now, final := Writing(s, call.op).logs, Recovery.LiveAll(json, Serve(json, s, call).0, later).raft.logs;
    Shipping.RequestShips(Writing(s, call.op), peer);
    assert now[0..] == now && now <= final;
    assert Commands(final)[..|now|] == Commands(now);
  }

  /** A follower, whatever it lived through, that accepts the leader's next write at
      next index 1 and runs its apply loop holds the fold of the operations written
      before: it always lags by the write being shipped. */
  lemma {:induction false} FollowerAgrees(decode: Node.EntryDecoder, json: JsonDecoder, peers: seq<string>,
        events: seq<Recovery.Event>, op: Op, peer: string, o: F.Origin, life: seq<F.Event>)
    requires Recovery.AllSmooth(peers, events)
    requires var s := LeaderAfter(json, peers, events);
             var leader := Commands(Writing(s, op).logs);
             && Plain(decode, Commands(s.raft.logs)) && NextFor(Writing(s, op), peer) == 1
             && F.AllPossible(leader, life) && AllBehind(life)
             && F.Admits(leader, o) && F.Starts(json, F.StoredAll(decode, leader), o)
             && o.store.lastAppliedIndex <= |s.raft.logs|
             && s.raft.currentTerm >= F.Lived(decode, json, leader, o, life).node.currentTerm
    ensures var s := LeaderAfter(json, peers, events);
            var leader := Commands(Writing(s, op).logs);
            var req := RequestTo(Writing(s, op), peer, |s.raft.logs| + 1);
            var f := F.Lived(decode, json, leader, o, life);
            Wellformed(req) &&
            (var n1 := Node.Append(decode, f.node, req).0;
             n1.lastApplied >= 0 &&
             (var (n2, store, _) := Node.ApplyCommitted(json, n1, f.store);
              && n2.lastApplied == |s.raft.logs| < |req.entries|
              && store.data == Folding.All(OpEffect, map[], Recovery.Ops(events))))
  {
    LeaderWhole(json, peers, events);
    var s := LeaderAfter(json, peers, events);
    Shipping.LifeNext(json, FreshLeader(peers, true), events);
    FullRequestIs(json, s, op, peer);
    var leader, n := Commands(Writing(s, op).logs), |s.raft.logs|;
    LogParses(json, s.raft.logs, Recovery.Ops(events));
    SeenBehind(leader, 0, life);
    assert F.StoredAll(decode, leader)[..n] == Commands(s.raft.logs);
    CatchesUp(decode, json, leader, o, life, s.raft.currentTerm, n);
    F.StartsReplay(json, F.StoredAll(decode, leader), o, n);
  }

  // ---------- A node that joined, as a follower ----------

  /** Where the follower's life of a node begins that came back with `node`'s state file
      and synchronised with the leader s. */
  ghost function Joined(json: JsonDecoder, node: Server, s: Server, id: int, peers: seq<int>): F.Origin {
    F.Origin(id, peers, JoinSync.Rejoin(json, node, s).store)
  }

  lemma CutCommands(logs: seq<LogEntry>, k: nat, m: nat)
    requires k <= m <= |logs|
    ensures Commands(logs[k..])[..m - k] == Commands(logs)[k..m]
  {
  }

  lemma {:induction false} TailStore(json: JsonDecoder, logs: seq<LogEntry>, k: nat)
    requires Indexed(logs) && k <= |logs|
    ensures var st := JoinSync.ApplyEach(json, logs[k..], EMPTY_STORE);
            && (st.lastAppliedIndex <= k ==> st == EMPTY_STORE)
            && 0 <= st.lastAppliedIndex <= |logs|
            && (st.lastAppliedIndex > k ==> st.data == Replay(json, map[], Commands(logs)[k..st.lastAppliedIndex]))
  {
    JoinSync.ApplyEachMark(json, logs[k..], EMPTY_STORE, k);
    JoinSync.MarkRises(json, logs[k..], EMPTY_STORE);
    var mark := JoinSync.ApplyEach(json, logs[k..], EMPTY_STORE).lastAppliedIndex;
    if mark > k {
      CutCommands(logs, k, mark);
    }
  }

  /** The joiner's store: nothing, or the replay of the entries past its disk log up to the mark. */
  lemma JoinedStore(json: JsonDecoder, node: Server, s: Server)
    requires JoinSync.Rejoins(node, s)
    ensures var st, k := JoinSync.Rejoin(json, node, s).store, |node.raft.logs|;
            && (st.lastAppliedIndex <= k ==> st == EMPTY_STORE)
            && 0 <= st.lastAppliedIndex <= |s.raft.logs|
            && (st.lastAppliedIndex > k ==>
                  st.data == Replay(json, map[], Commands(s.raft.logs)[k..st.lastAppliedIndex]))
  {
    JoinSync.RejoinReplays(json, node, s);
    TailStore(json, s.raft.logs, |node.raft.logs|);
  }

  lemma JoinedAdmits(json: JsonDecoder, node: Server, s: Server, leader: seq<string>, id: int, peers: seq<int>)
    requires JoinSync.Rejoins(node, s) && Commands(s.raft.logs) <= leader
    ensures F.Admits(leader, Joined(json, node, s, id, peers))
  {
    JoinedStore(json, node, s);
  }

  /** The stretch from the disk log's end to the mark, and from there on, is one stretch. */
  lemma JoinedExtends(json: JsonDecoder, log: seq<string>, commands: seq<string>, data: Data, k: nat, mark: nat,
        last: nat)
    requires log <= commands && k <= mark <= |log| && mark <= last <= |commands|
    requires data == Replay(json, map[], log[k..mark])
    ensures Replay(json, data, commands[mark..last]) == Replay(json, map[], commands[k..last])
  {
    assert commands[k..last] == log[k..mark] + commands[mark..last];
    ReplayConcat(json, map[], log[k..mark], commands[mark..last]);
  }

  /** Whatever it lives through as a follower, such a node has performed the commands from
      the end of its disk log on, or all of them where the exchange applied nothing. */
  lemma {:induction false} JoinedFollows(decode: Node.EntryDecoder, json: JsonDecoder, node: Server, s: Server,
        leader: seq<string>, id: int, peers: seq<int>, events: seq<F.Event>) returns (last: nat)
    requires JoinSync.Rejoins(node, s) && Commands(s.raft.logs) <= leader && Plain(decode, Commands(s.raft.logs))
    requires F.AllPossible(leader, events)
    ensures var o := Joined(json, node, s, id, peers);
            && F.Admits(leader, o)
            && (var f, mark := F.Lived(decode, json, leader, o, events), o.store.lastAppliedIndex;
                var from := if mark > |node.raft.logs| then |node.raft.logs| else 0;
                && last == Max(f.node.lastApplied, mark) && from <= last <= |leader|
                && f.store.data == Replay(json, map[], F.StoredAll(decode, leader)[from..last]))
  {
    var o, k := Joined(json, node, s, id, peers), |node.raft.logs|;
    JoinedStore(json, node, s);
    F.AlwaysPrefixReplica(decode, json, leader, o, events);
    var commands, mark := F.StoredAll(decode, leader), o.store.lastAppliedIndex;
    last := Max(F.Lived(decode, json, leader, o, events).node.lastApplied, mark);
    if mark > k {
      assert Commands(s.raft.logs) <= commands;
      JoinedExtends(json, Commands(s.raft.logs), commands, o.store.data, k, mark, last);
    }
  }

  lemma {:induction false} StretchIff(json: JsonDecoder, logs: seq<LogEntry>, ops: seq<Op>, from: nat, last: nat)
    requires LogsOps(logs, ops) && from <= last <= |ops|
    ensures Replay(json, map[], Commands(logs)[from..last]) == Folding.All(OpEffect, map[], ops[..last]) <==>
            TailFold.NothingLost(ops[..last], from)
  {
    var cut, written := logs[..last], ops[..last];
    assert Commands(cut[from..]) == Commands(logs)[from..last];
    JoinSync.TailReplays(json, cut, written, from);
    TailFold.DropIff(written, from);
  }

  /** Against the leader's log, whatever its length by then: the follower's map is the fold
      of the first `last` operations written if and only if none it skipped would show. */
  lemma {:induction false} JoinedFollowerIff(decode: Node.EntryDecoder, json: JsonDecoder, node: Server, s: Server,
        logs: seq<LogEntry>, ops: seq<Op>, id: int, peers: seq<int>, events: seq<F.Event>)
    returns (last: nat, skipped: nat)
    requires JoinSync.Rejoins(node, s) && s.raft.logs <= logs && LogsOps(logs, ops)
    requires Plain(decode, Commands(logs)) && F.AllPossible(Commands(logs), events)
    ensures var o := Joined(json, node, s, id, peers);
            && F.Admits(Commands(logs), o)
            && (var f := F.Lived(decode, json, Commands(logs), o, events);
                && skipped == (if node.raft.logs == s.raft.logs then 0 else |node.raft.logs|)
                && last == Max(f.node.lastApplied, o.store.lastAppliedIndex) && skipped <= last <= |ops|
                && (f.store.data == Folding.All(OpEffect, map[], ops[..last]) <==>
                    TailFold.NothingLost(ops[..last], skipped)))
  {
    assert Commands(s.raft.logs) == Commands(logs)[..|s.raft.logs|];
    assert Plain(decode, Commands(s.raft.logs));
    last := JoinedFollows(decode, json, node, s, Commands(logs), id, peers, events);
    JoinSync.RejoinMark(json, node, s, ops[..|s.raft.logs|]);
    skipped := if node.raft.logs == s.raft.logs then 0 else |node.raft.logs|;
    assert F.StoredAll(decode, Commands(logs)) == Commands(logs);
    StretchIff(json, logs, ops, skipped, last);
  }

  /** Its store is the replay of the leader's log up to its mark, as the other follower
      theorems ask, if and only if the exchange brought nothing or nothing on its disk
      would show. */
  lemma {:induction false} JoinedStartsIff(decode: Node.EntryDecoder, json: JsonDecoder, node: Server, s: Server,
        ops: seq<Op>, leader: seq<string>, id: int, peers: seq<int>)
    requires JoinSync.Rejoins(node, s) && Commands(s.raft.logs) <= leader && Plain(decode, Commands(s.raft.logs))
    requires LogsOps(s.raft.logs, ops)
    ensures F.Starts(json, F.StoredAll(decode, leader), Joined(json, node, s, id, peers)) <==>
            node.raft.logs == s.raft.logs || TailFold.NothingLost(ops, |node.raft.logs|)
  {
    var commands := F.StoredAll(decode, leader);
    if node.raft.logs == s.raft.logs {
      JoinSync.RejoinsEmpty(json, node, s);
      F.EmptyStarts(json, commands, id, peers);
    } else {
      JoinSync.RejoinMark(json, node, s, ops);
      JoinSync.JoinAgreesIff(json, node, s, ops);
      assert commands[..|ops|] == Commands(s.raft.logs);
    }
  }
}
