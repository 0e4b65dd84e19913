/** Stopping and starting the leader: PersistRaftState writes term, vote and log;
    recoverFromStorage reads them back and, on a node started as master, replays the log. */
module Recovery {
  import opened RaftTypes
  import opened CommandCodec
  import opened KvStore
  import opened LeaderState
  import opened Replication
  import opened LeaderStore
  import opened TailFold
  import Folding

  /** The state file. */
  datatype Saved = Saved(currentTerm: int, votedFor: int, logs: seq<LogEntry>)

  function Persist(r: Raft): Saved { Saved(r.currentTerm, r.votedFor, r.logs) }

  /** The replay loop: entries up to `before` are skipped, entries that fail to apply are passed over. */
  function ReplayEntries(json: JsonDecoder, entries: seq<LogEntry>, before: int, last: int, st: Store): (int, Store) {
    if entries == [] then (last, st)
    else
      var e := entries[0];
      if e.index <= before then ReplayEntries(json, entries[1..], before, last, st)
      else
        var (st', r) := ApplyEntry(json, st, e);
        ReplayEntries(json, entries[1..], before, if r.Ok? then e.index else last, st')
  }

  function Recover(json: JsonDecoder, s: Server, file: Option<Saved>): Server {
    match file
    case None => s
    case Some(saved) =>
      var r := s.raft.(currentTerm := saved.currentTerm, votedFor := saved.votedFor, logs := saved.logs);
      if !s.master || saved.logs == [] then s.(raft := r)
      else
        var (last, st) := ReplayEntries(json, saved.logs, s.raft.lastApplied, s.raft.lastApplied, s.store);
        s.(raft := r.(lastApplied := last, commitIndex := LastIndex(saved.logs)), store := st)
  }

  method RecoverFromStorage(json: JsonDecoder, server: KvServer, file: Option<Saved>)
    modifies server.raft, server.kv
    ensures server.View() == Recover(json, old(server.View()), file)
  {
    var raft, kv := server.raft, server.kv;
    match file {
      case None => return;
      case Some(saved) =>
        raft.currentTerm := saved.currentTerm;
        raft.votedFor := saved.votedFor;
        raft.logs := saved.logs;
        if server.master && |saved.logs| > 0 {
          var before := raft.lastApplied;
          ghost var last0, st0 := raft.lastApplied, kv.View();
          ghost var r := raft.View();
          for i := 0 to |saved.logs|
            invariant raft.View() == r.(lastApplied := raft.lastApplied)
            invariant ReplayEntries(json, saved.logs, before, last0, st0)
                   == ReplayEntries(json, saved.logs[i..], before, raft.lastApplied, kv.View())
          {
            assert saved.logs[i..][1..] == saved.logs[i + 1..];
            var entry := saved.logs[i];
            if entry.index > before {
              var result := kv.ApplyLog(json, entry);
              if result.Err? {
                continue;
              }
              raft.lastApplied := entry.index;
            }
          }
          raft.commitIndex := saved.logs[|saved.logs| - 1].index;
        }
    }
  }

  /** Without a file nothing changes; a file gives any node its term, vote and log, and a node
      that is not master, or a file without entries, nothing else. */
  lemma RecoverLeaves(json: JsonDecoder, s: Server, saved: Saved)
    ensures Recover(json, s, None) == s
    ensures var r := Recover(json, s, Some(saved)).raft;
            && r.currentTerm == saved.currentTerm && r.votedFor == saved.votedFor && r.logs == saved.logs
            && r.nextIndex == s.raft.nextIndex && r.matchIndex == s.raft.matchIndex
            && r.peers == s.raft.peers && r.isMaster == s.raft.isMaster
    ensures !s.master || saved.logs == [] ==>
              var s' := Recover(json, s, Some(saved));
              && s'.store == s.store && s'.raft.lastApplied == s.raft.lastApplied
              && s'.raft.commitIndex == s.raft.commitIndex
  {
  }

  /** Entries up to lastApplied are passed over whatever the store holds. */
  lemma {:induction false} ReplaySkips(json: JsonDecoder, entries: seq<LogEntry>, before: int, last: int, st: Store,
        from: int, k: nat)
    requires Consecutive(entries, from) && k <= |entries| && from + k <= before
    ensures ReplayEntries(json, entries, before, last, st) == ReplayEntries(json, entries[k..], before, last, st)
    decreases k
  {
    if k == 0 {
      assert entries[0..] == entries;
    } else {
      ReplaySkips(json, entries[1..], before, last, st, from + 1, k - 1);
      assert entries[1..][k - 1..] == entries[k..];
    }
  }

  /** A new process, started with this master flag, reading the file the old one left. */
  function Restart(json: JsonDecoder, s: Server, master: bool): Server {
    Recover(json, FreshLeader(s.raft.peers, master), Some(Persist(s.raft)))
  }

  /** Replaying consecutive entries performs all of them, whether or not they parse. */
  lemma {:induction false} ReplayEntriesResult(json: JsonDecoder, entries: seq<LogEntry>, before: int, last: int,
        st: Store, from: int)
    requires Consecutive(entries, from) && before <= from && st.lastAppliedIndex <= from && last == st.lastAppliedIndex
    ensures var (last', st') := ReplayEntries(json, entries, before, last, st);
            && st'.data == Replay(json, st.data, Commands(entries))
            && last' == st'.lastAppliedIndex
            && last <= last' && (entries != [] ==> last' <= from + |entries|)
            && (entries != [] && Parses(json, entries[|entries| - 1].command) ==> last' == from + |entries|)
    decreases |entries|
  {
    if entries != [] {
      var st1 := ApplyEntry(json, st, entries[0]).0;
      var rest := entries[1..];
      ReplayEntriesResult(json, rest, before, st1.lastAppliedIndex, st1, from + 1);
      assert Commands(entries) == [entries[0].command] + Commands(rest);
      ReplayConcat(json, st.data, [entries[0].command], Commands(rest));
      ReplayOne(json, st.data, entries[0].command);
    }
  }

  /** A restarted leader holds exactly the replay of its log. */
  lemma RestartReplaysLog(json: JsonDecoder, s: Server)
    requires Indexed(s.raft.logs)
    ensures var s' := Restart(json, s, true);
            && s'.store.data == Replay(json, map[], Commands(s.raft.logs))
            && 0 <= s'.raft.lastApplied <= |s.raft.logs| && s'.store.lastAppliedIndex == s'.raft.lastApplied
            && (s.raft.logs != [] && Parses(json, s.raft.logs[|s.raft.logs| - 1].command) ==>
                  s'.raft.lastApplied == |s.raft.logs|)
  {
    ReplayEntriesResult(json, s.raft.logs, 0, 0, EMPTY_STORE, 0);
    if s.raft.logs == [] {
      assert Commands(s.raft.logs) == [];
    }
  }

  /** Master or not, log, term and vote survive; what was known of the peers does not. */
  lemma RestartKeepsLog(json: JsonDecoder, s: Server, master: bool)
    requires Indexed(s.raft.logs)
    ensures var s' := Restart(json, s, master);
            && Sound(s') && s'.master == s'.raft.isMaster == master
            && s'.raft.logs == s.raft.logs && s'.raft.peers == s.raft.peers
            && s'.raft.currentTerm == s.raft.currentTerm && s'.raft.votedFor == s.raft.votedFor
            && s'.raft.nextIndex == map[] && s'.raft.matchIndex == map[]
            && s'.raft.commitIndex == (if master then |s.raft.logs| else 0)
  {
    if master {
      RestartReplaysLog(json, s);
    }
  }

  // ---------- Lives: calls and any number of restarts ----------

  datatype Event = Called(call: Call) | Restarted(master: bool)

  function Live(json: JsonDecoder, s: Server, e: Event): Server
    requires Sound(s)
  {
    match e
    case Called(call) => Serve(json, s, call).0
    case Restarted(master) => Restart(json, s, master)
  }

  lemma LiveSound(json: JsonDecoder, s: Server, e: Event)
    requires Sound(s)
    ensures Sound(Live(json, s, e))
  {
    match e
    case Called(call) => ServeSound(json, s, call);
    case Restarted(master) => RestartKeepsLog(json, s, master);
  }

  function LiveAll(json: JsonDecoder, s: Server, events: seq<Event>): (s': Server)
    requires Sound(s)
    ensures Sound(s')
    decreases |events|
  {
    if events == [] then s
    else
      LiveSound(json, s, events[0]);
      LiveAll(json, Live(json, s, events[0]), events[1..])
  }

  // ---------- Lives in which every write is acknowledged ----------

  /** The map is the replay of the whole log, and the next write starts from there. */
  ghost predicate Whole(json: JsonDecoder, s: Server) {
    && Sound(s) && s.master
    && s.store.data == Replay(json, map[], Commands(s.raft.logs))
    && |s.raft.logs| - 1 <= s.raft.lastApplied && s.raft.commitIndex == |s.raft.logs|
    && (s.raft.logs != [] ==> Parses(json, s.raft.logs[|s.raft.logs| - 1].command))
  }

  lemma WriteCommits(json: JsonDecoder, s: Server, op: Op, arrivals: seq<Arrival>)
    requires Sound(s) && s.master
    ensures Write(json, s, op, arrivals).0.raft.commitIndex
         == if Acknowledged(s.raft.peers, arrivals) then |s.raft.logs| + 1 else s.raft.commitIndex
  {
    WriteUnfolds(json, s, op, arrivals);
    var r := s.raft.(logs := s.raft.logs + [NewEntry(s, op)]);
    ContactAllFrame(r, r.peers);
    HandleAllFrame(ContactAll(r, r.peers), |r.logs|, arrivals);
  }

  lemma WriteKeepsWhole(json: JsonDecoder, s: Server, op: Op, arrivals: seq<Arrival>)
    requires Whole(json, s) && Clean(op) && Acknowledged(s.raft.peers, arrivals)
    ensures var (s', success) := Write(json, s, op, arrivals);
            && success && Whole(json, s')
            && s'.raft.logs == s.raft.logs + [NewEntry(s, op)] && s'.raft.peers == s.raft.peers
            && s'.store.data == OpEffect(s.store.data, op)
  {
    WriteResult(json, s, op, arrivals);
    WriteCommits(json, s, op, arrivals);
    CleanPerforms(json, s.store.data, op);
    var before, e := Commands(s.raft.logs), Print(op);
    var logs := s.raft.logs + [NewEntry(s, op)];
    assert Commands(logs) == before + [e];
    ReplayConcat(json, map[], before, [e]);
    ReplayOne(json, s.store.data, e);
    EffectTwice(s.store.data, op);
    OneReached(json, s, logs, e);
  }

  /** Such a write reaches at most itself. */
  lemma OneReached(json: JsonDecoder, s: Server, logs: seq<LogEntry>, e: string)
    requires Sound(s) && |s.raft.logs| - 1 <= s.raft.lastApplied && Parses(json, e)
    requires |logs| == |s.raft.logs| + 1 && logs[|logs| - 1].command == e
    ensures var commands := Commands(Reached(logs, From(s)));
            && GoodPrefix(json, commands) == |commands|
            && commands[..|commands|] == (if s.raft.lastApplied == |s.raft.logs| then [] else [e])
  {
  }

  lemma RestartKeepsWhole(json: JsonDecoder, s: Server)
    requires Whole(json, s)
    ensures var s' := Restart(json, s, true);
            && Whole(json, s') && s'.store.data == s.store.data
            && s'.raft.logs == s.raft.logs && s'.raft.peers == s.raft.peers
  {
    RestartReplaysLog(json, s);
    RestartKeepsLog(json, s, true);
  }

  /** A colon-free acknowledged write, a read, or a start as master. */
  predicate Smooth(peers: seq<string>, e: Event) {
    match e
    case Called(Update(op, arrivals)) => Clean(op) && Acknowledged(peers, arrivals)
    case Called(SetMaster(flag)) => flag
    case Called(Read(_)) => true
    case Restarted(master) => master
  }

  ghost predicate AllSmooth(peers: seq<string>, events: seq<Event>) {
    forall i :: 0 <= i < |events| ==> Smooth(peers, events[i])
  }

  function OpOf(e: Event): seq<Op> {
    if e.Called? && e.call.Update? then [e.call.op] else []
  }

  /** The operations written, in order. */
  function Ops(events: seq<Event>): seq<Op> {
    if events == [] then [] else OpOf(events[0]) + Ops(events[1..])
  }

  lemma {:induction false} LifePreserves(json: JsonDecoder, s: Server, events: seq<Event>)
    requires Whole(json, s) && AllSmooth(s.raft.peers, events)
    ensures var s' := LiveAll(json, s, events);
            && Whole(json, s') && s'.raft.peers == s.raft.peers
            && s'.store.data == Folding.All(OpEffect, s.store.data, Ops(events))
    decreases |events|
  {
    if events != [] {
      var e, s1 := events[0], Live(json, s, events[0]);
      assert Smooth(s.raft.peers, e);
      if e.Called? && e.call.Update? {
        var op := e.call.op;
        WriteKeepsWhole(json, s, op, e.call.arrivals);
        Folding.Concat(OpEffect, s.store.data, [op], Ops(events[1..]));
        Folding.One(OpEffect, s.store.data, op);
      } else {
        RestartKeepsWhole(json, s);
        assert Ops(events) == Ops(events[1..]);
      }
      LifePreserves(json, s1, events[1..]);
    }
  }

  /** From a fresh leader whose writes are all acknowledged and colon-free, through
      any number of stops and starts, the map is what those writes amount to, and
      one more restart gives exactly that map and that log again. */
  lemma {:induction false} RestartPreserves(json: JsonDecoder, peers: seq<string>, events: seq<Event>)
    requires AllSmooth(peers, events)
    ensures var s := LiveAll(json, FreshLeader(peers, true), events);
            && s.store.data == Folding.All(OpEffect, map[], Ops(events))
            && Restart(json, s, true).store.data == s.store.data && Restart(json, s, true).raft.logs == s.raft.logs
  {
    var s0 := FreshLeader(peers, true);
    assert Commands(s0.raft.logs) == [];
    LifePreserves(json, s0, events);
    RestartKeepsWhole(json, LiveAll(json, s0, events));
  }

  // ---------- Lives in which writes may fail ----------

  /** Any event but a write of a key or value that holds a colon: calls, changes of the
      master flag while the process runs, and starts as master or not. */
  predicate ColonFree(e: Event) {
    e.Called? && e.call.Update? ==> Clean(e.call.op)
  }

  ghost predicate AllColonFree(events: seq<Event>) {
    forall i :: 0 <= i < |events| ==> ColonFree(events[i])
  }

  /** A start as master applies everything logged; any other start applies nothing, and
      nothing logged so far is promised any more. */
  function LiveRecord(s: Server, h: History, e: Event): History
    requires s.raft.lastApplied >= 0
  {
    match e
    case Called(call) => Record(s, h, call)
    case Restarted(true) => h.(applied := Range(1, |h.ops|))
    case Restarted(false) => h.(applied := [], acked := {})
  }

  function LiveRecordAll(json: JsonDecoder, s: Server, h: History, events: seq<Event>): History
    requires Sound(s)
    decreases |events|
  {
    if events == [] then h
    else
      LiveSound(json, s, events[0]);
      LiveRecordAll(json, Live(json, s, events[0]), LiveRecord(s, h, events[0]), events[1..])
  }

  lemma AllInRange(acked: set<nat>, applied: seq<nat>, n: nat)
    requires Within(applied, n) && forall a :: a in acked ==> a in applied
    ensures forall a :: a in acked ==> a in Range(1, n)
  {
    forall a | a in acked ensures a in Range(1, n) {
      assert Range(1, n)[a - 1] == a;
    }
  }

  /** A restarted master has performed its whole log. */
  lemma RestartFolds(json: JsonDecoder, s: Server, ops: seq<Op>)
    requires Indexed(s.raft.logs) && LogsOps(s.raft.logs, ops)
    ensures Within(Range(1, |ops|), |ops|) && Restart(json, s, true).store.data == Fold(ops, Range(1, |ops|))
    ensures Restart(json, s, true).raft.lastApplied == |ops|
  {
    RestartReplaysLog(json, s);
    LogPerforms(json, s.raft.logs, ops, 0);
    assert s.raft.logs[0..] == s.raft.logs && ops[0..] == ops;
    TailFolds(ops, 0);
    if ops != [] {
      CleanPerforms(json, map[], ops[|ops| - 1]);
    }
  }

  lemma MasterRefines(json: JsonDecoder, s: Server, h: History)
    requires Refines(s, h)
    ensures Refines(Restart(json, s, true), h.(applied := Range(1, |h.ops|)))
  {
    RestartKeepsLog(json, s, true);
    RestartFolds(json, s, h.ops);
    RangeWithin(0, |h.ops|);
    AllInRange(h.acked, h.applied, |h.ops|);
  }

  /** A node started as non-master has its log back and an empty map. */
  lemma EmptyRefines(json: JsonDecoder, s: Server, ops: seq<Op>)
    requires Sound(s) && LogsOps(s.raft.logs, ops)
    ensures Refines(Restart(json, s, false), History(ops, [], {}))
  {
    RestartKeepsLog(json, s, false);
    assert Pick(ops, []) == [];
  }

  lemma RestartRefines(json: JsonDecoder, s: Server, h: History, master: bool)
    requires Refines(s, h)
    ensures Refines(Restart(json, s, master), LiveRecord(s, h, Restarted(master)))
  {
    if master {
      MasterRefines(json, s, h);
    } else {
      EmptyRefines(json, s, h.ops);
    }
  }

  lemma LiveRefines(json: JsonDecoder, s: Server, h: History, e: Event)
    requires Refines(s, h) && ColonFree(e)
    ensures Refines(Live(json, s, e), LiveRecord(s, h, e))
  {
    match e
    case Restarted(master) => RestartRefines(json, s, h, master);
    case Called(call) => ServeRefines(json, s, h, call);
  }

  /** The leader's map refines a simple map through every life: calls, changes of the
      master flag, and starts as master or not. */
  lemma {:induction false} LifeRefines(json: JsonDecoder, s: Server, h: History, events: seq<Event>)
    requires Refines(s, h) && AllColonFree(events)
    ensures Refines(LiveAll(json, s, events), LiveRecordAll(json, s, h, events))
    decreases |events|
  {
    if events != [] {
      var e := events[0];
      assert ColonFree(e);
      LiveRefines(json, s, h, e);
      LifeRefines(json, Live(json, s, e), LiveRecord(s, h, e), events[1..]);
    }
  }

  lemma {:induction false} LifeRecordGrows(json: JsonDecoder, s: Server, h: History, events: seq<Event>)
    requires Sound(s)
    ensures h.ops <= LiveRecordAll(json, s, h, events).ops
    decreases |events|
  {
    if events != [] {
      LiveSound(json, s, events[0]);
      LifeRecordGrows(json, Live(json, s, events[0]), LiveRecord(s, h, events[0]), events[1..]);
    }
  }

  /** Per key, the last applied operation left what the last logged one leaves. */
  ghost predicate NothingPending(h: History)
    requires Within(h.applied, |h.ops|)
  {
    RangeWithin(0, |h.ops|);
    forall key :: LastLeft(h.ops, h.applied, key) == LastLeft(h.ops, Range(1, |h.ops|), key)
  }

  /** Restarting a leader rebuilds its live map if and only if, key by key, the last
      applied operation left what the last logged one leaves: a write that was logged
      and not acknowledged is performed by the restart all the same. */
  lemma RestartAgreesIff(json: JsonDecoder, s: Server, h: History)
    requires Refines(s, h)
    ensures Restart(json, s, true).store.data == s.store.data <==> NothingPending(h)
  {
    RestartFolds(json, s, h.ops);
    FoldsAgreeIff(h.ops, h.applied, Range(1, |h.ops|));
  }

  /** So it is after every life with colon-free writes, failed ones and any starts included. */
  lemma {:induction false} LifeRestartIff(json: JsonDecoder, peers: seq<string>, master: bool, events: seq<Event>)
    requires AllColonFree(events)
    ensures var s := LiveAll(json, FreshLeader(peers, master), events);
            var h := LiveRecordAll(json, FreshLeader(peers, master), NO_HISTORY, events);
            && Refines(s, h) && (Restart(json, s, true).store.data == s.store.data <==> NothingPending(h))
  {
    FreshRefines(peers, master);
    LifeRefines(json, FreshLeader(peers, master), NO_HISTORY, events);
    RestartAgreesIff(json, LiveAll(json, FreshLeader(peers, master), events),
                     LiveRecordAll(json, FreshLeader(peers, master), NO_HISTORY, events));
  }

  // ---------- What becomes of an acknowledged write ----------

  predicate MasterAfter(master: bool, e: Event) {
    match e
    case Called(SetMaster(flag)) => flag
    case Restarted(flag) => flag
    case _ => master
  }

  /** Whether the live map has performed operation number a after the event: a start
      decides it, and the first acknowledged write after a start as non-master brings
      everything logged back but operation 1. */
  predicate HeldOn(peers: seq<string>, master: bool, a: nat, held: bool, e: Event) {
    match e
    case Restarted(flag) => flag
    case Called(Update(_, arrivals)) => held || (a > 1 && master && Acknowledged(peers, arrivals))
    case _ => held
  }

  predicate HeldAfter(peers: seq<string>, master: bool, a: nat, held: bool, events: seq<Event>)
    decreases |events|
  {
    if events == [] then held
    else HeldAfter(peers, MasterAfter(master, events[0]), a, HeldOn(peers, master, a, held, events[0]), events[1..])
  }

  /** In a process that only ever starts as master nothing acknowledged is let go. */
  lemma {:induction false} MasterHolds(peers: seq<string>, master: bool, a: nat, events: seq<Event>)
    requires forall i :: 0 <= i < |events| && events[i].Restarted? ==> events[i].master
    ensures HeldAfter(peers, master, a, true, events)
    decreases |events|
  {
    if events != [] {
      MasterHolds(peers, MasterAfter(master, events[0]), a, events[1..]);
    }
  }

  /** `held` says whether operation a is applied; what is not applied, but for
      operation 1, is within reach of the next write. */
  ghost predicate Tracks(s: Server, h: History, a: nat, held: bool) {
    && 1 <= a <= |h.ops|
    && (held <==> a in h.applied)
    && (!held && a > 1 ==> From(s) == 1 && h.applied == [])
  }

  lemma InAdded(a: nat, from: nat, n: nat)
    requires 1 <= a < n
    ensures a in Added(from, n) <==> from < a
  {
    if from < a {
      assert Added(from, n)[a - from - 1] == a;
    }
  }

  lemma RestartTracks(json: JsonDecoder, s: Server, h: History, a: nat, held: bool, master: bool)
    requires Sound(s) && Tracks(s, h, a, held)
    ensures Tracks(Restart(json, s, master), LiveRecord(s, h, Restarted(master)), a, master)
  {
    if master {
      assert Range(1, |h.ops|)[a - 1] == a;
    }
  }

  lemma CommittedTracks(s: Server, h: History, a: nat, held: bool, s': Server, op: Op)
    requires Sound(s) && Tracks(s, h, a, held)
    ensures var n := |h.ops| + 1;
            Tracks(s', History(h.ops + [op], h.applied + Added(From(s), n), h.acked + {n}), a, held || a > 1)
  {
    InAdded(a, From(s), |h.ops| + 1);
  }

  lemma UpdateTracks(json: JsonDecoder, s: Server, h: History, a: nat, held: bool, op: Op, arrivals: seq<Arrival>)
    requires Sound(s) && LogsOps(s.raft.logs, h.ops) && s.master && Clean(op) && Tracks(s, h, a, held)
    ensures Tracks(Write(json, s, op, arrivals).0, Record(s, h, Update(op, arrivals)), a,
                   held || (a > 1 && Acknowledged(s.raft.peers, arrivals)))
  {
    if Acknowledged(s.raft.peers, arrivals) {
      CommittedTracks(s, h, a, held, Write(json, s, op, arrivals).0, op);
    } else {
      UpdateMarks(json, s, h.ops, op, arrivals);
    }
  }

  lemma LiveTracks(json: JsonDecoder, s: Server, h: History, a: nat, held: bool, e: Event)
    requires Sound(s) && LogsOps(s.raft.logs, h.ops) && ColonFree(e) && Tracks(s, h, a, held)
    ensures Tracks(Live(json, s, e), LiveRecord(s, h, e), a, HeldOn(s.raft.peers, s.master, a, held, e))
  {
    match e
    case Restarted(master) => RestartTracks(json, s, h, a, held, master);
    case Called(call) =>
      if call.Update? && s.master {
        UpdateTracks(json, s, h, a, held, call.op, call.arrivals);
      }
  }

  lemma LivePeers(json: JsonDecoder, s: Server, e: Event)
    requires Sound(s)
    ensures Live(json, s, e).raft.peers == s.raft.peers && Live(json, s, e).master == MasterAfter(s.master, e)
  {
    match e
    case Restarted(master) => RestartKeepsLog(json, s, master);
    case Called(call) =>
      if call.Update? && s.master {
        WriteResult(json, s, call.op, call.arrivals);
      }
  }

  lemma {:induction false} LifeTracks(json: JsonDecoder, s: Server, h: History, a: nat, held: bool, events: seq<Event>)
    requires Refines(s, h) && AllColonFree(events) && Tracks(s, h, a, held)
    ensures Tracks(LiveAll(json, s, events), LiveRecordAll(json, s, h, events), a,
                   HeldAfter(s.raft.peers, s.master, a, held, events))
    decreases |events|
  {
    if events != [] {
      var e := events[0];
      assert ColonFree(e);
      LiveTracks(json, s, h, a, held, e);
      LiveRefines(json, s, h, e);
      LivePeers(json, s, e);
      LifeTracks(json, Live(json, s, e), LiveRecord(s, h, e), a, HeldOn(s.raft.peers, s.master, a, held, e),
                 events[1..]);
    }
  }

  lemma WriteTracks(json: JsonDecoder, s: Server, h: History, call: Call)
    requires Refines(s, h) && call.Update? && Clean(call.op) && Serve(json, s, call).1
    ensures var s1, h1 := Serve(json, s, call).0, Record(s, h, call);
            && Refines(s1, h1) && Tracks(s1, h1, |h.ops| + 1, true)
            && h1.ops == h.ops + [call.op] && s.master && s1.master && s1.raft.peers == s.raft.peers
  {
    ServeRefines(json, s, h, call);
    ServeAnswers(json, s, h, call);
    WriteResult(json, s, call.op, call.arrivals);
  }

  lemma {:induction false} HeldReads(ops: seq<Op>, applied: seq<nat>, a: nat, held: bool) returns (b: nat)
    requires Within(applied, |ops|) && Ascending(applied, |ops|) && 1 <= a <= |ops|
    requires (held <==> a in applied) && (!held && a > 1 ==> applied == [])
    ensures b <= |ops| && ReadsAs(Fold(ops, applied), ops[a - 1].key, ops, b)
    ensures b > 0 ==> Touches(ops[b - 1], ops[a - 1].key)
    ensures if held then b >= a else b == 0 || b > a == 1
  {
    var key := ops[a - 1].key;
    FoldReads(ops, applied, key);
    b := LastOn(ops, applied, key);
    if held {
      LastOnIsLast(ops, applied, key, a);
    }
  }

  /** What the key of operation a reads as: number b, not older than a if a is held,
      otherwise nothing or, where a is 1, a later one. */
  lemma TrackedReads(s: Server, h: History, a: nat, held: bool) returns (b: nat)
    requires Refines(s, h) && Tracks(s, h, a, held)
    ensures b <= |h.ops| && ReadsAs(s.store.data, h.ops[a - 1].key, h.ops, b)
    ensures b > 0 ==> Touches(h.ops[b - 1], h.ops[a - 1].key)
    ensures if held then b >= a else b == 0 || b > a == 1
  {
    b := HeldReads(h.ops, h.applied, a, held);
  }

  /** After any calls and any starts, an acknowledged write is in the live map if and
      only if it is held: it is lost at a start as non-master and comes back with the
      next start as master or, unless it was the first operation ever logged, with the
      next acknowledged write.  Its key reads as operation b left it. */
  lemma {:induction false} AcknowledgedSurvives(json: JsonDecoder, s: Server, h: History, call: Call,
        after: seq<Event>) returns (b: nat)
    requires Refines(s, h) && call.Update? && Clean(call.op) && AllColonFree(after) && Serve(json, s, call).1
    ensures Sound(Serve(json, s, call).0)
    ensures var s' := LiveAll(json, Serve(json, s, call).0, after);
            var h' := LiveRecordAll(json, Serve(json, s, call).0, Record(s, h, call), after);
            var a := |h.ops| + 1;
            var held := HeldAfter(s.raft.peers, true, a, true, after);
            && a <= |h'.ops| && h'.ops[a - 1] == call.op && (a in h'.applied <==> held)
            && b <= |h'.ops| && (b > 0 ==> Touches(h'.ops[b - 1], call.op.key))
            && ReadsAs(s'.store.data, call.op.key, h'.ops, b)
            && (if held then b >= a else b == 0 || b > a == 1)
  {
    var s1, h1, a := Serve(json, s, call).0, Record(s, h, call), |h.ops| + 1;
    WriteTracks(json, s, h, call);
    LifeRecordGrows(json, s1, h1, after);
    LifeRefines(json, s1, h1, after);
    LifeTracks(json, s1, h1, a, true, after);
    b := TrackedReads(LiveAll(json, s1, after), LiveRecordAll(json, s1, h1, after), a,
                      HeldAfter(s.raft.peers, true, a, true, after));
  }

  // ---------- A node promoted after a start as non-master ----------

  /** Where such a node's first write starts. */
  lemma PromotedStarts(json: JsonDecoder, s: Server, ops: seq<Op>)
    requires Sound(s) && LogsOps(s.raft.logs, ops)
    ensures var s1 := Restart(json, s, false).(master := true);
            && Refines(s1, History(ops, [], {})) && From(s1) == 1
            && s1.raft.logs == s.raft.logs && s1.raft.peers == s.raft.peers
  {
    EmptyRefines(json, s, ops);
    RestartKeepsLog(json, s, false);
  }

  lemma PromotedFolds(json: JsonDecoder, s1: Server, ops: seq<Op>, op: Op, arrivals: seq<Arrival>)
    requires Refines(s1, History(ops, [], {})) && From(s1) == 1 && s1.master && ops != []
    requires Clean(op) && Acknowledged(s1.raft.peers, arrivals)
    ensures Write(json, s1, op, arrivals).0.store.data == Folding.All(OpEffect, map[], (ops + [op])[1..])
  {
    UpdateFolds(json, s1, History(ops, [], {}), op, arrivals);
    assert [] + Added(1, |ops| + 1) == Range(2, |ops| + 1);
    TailFolds(ops + [op], 1);
  }

  lemma {:induction false} FirstLostIff(ops: seq<Op>)
    requires ops != []
    ensures Folding.All(OpEffect, map[], ops[1..]) == Folding.All(OpEffect, map[], ops) <==> Replaceable(ops, 0)
  {
    DropIff(ops, 1);
  }

  /** A node started as non-master and then promoted: its first acknowledged write brings
      the whole log into the map but for the first operation.  The map is then the fold of
      the log if and only if that operation leaves nothing or a later one is on its key. */
  lemma {:induction false} FirstOperationLost(json: JsonDecoder, s: Server, ops: seq<Op>, op: Op,
        arrivals: seq<Arrival>)
    requires Sound(s) && LogsOps(s.raft.logs, ops) && ops != []
    requires Clean(op) && Acknowledged(s.raft.peers, arrivals)
    ensures var (s', success) := Write(json, Restart(json, s, false).(master := true), op, arrivals);
            var logged := ops + [op];
            && success && LogsOps(s'.raft.logs, logged)
            && s'.store.data == Folding.All(OpEffect, map[], logged[1..])
            && (s'.store.data == Folding.All(OpEffect, map[], logged) <==> Replaceable(logged, 0))
  {
    var s1 := Restart(json, s, false).(master := true);
    PromotedStarts(json, s, ops);
    UpdateMarks(json, s1, ops, op, arrivals);
    PromotedFolds(json, s1, ops, op, arrivals);
    FirstLostIff(ops + [op]);
  }

  /** Witness: "a" is set and acknowledged, the node starts as non-master and is promoted,
      and an acknowledged write later "a" is gone. */
  lemma FirstWriteIsLost(json: JsonDecoder)
    ensures var s1 := Write(json, FreshLeader([], true), Put("a", "1"), []);
            && s1.1 && s1.0.raft.lastApplied >= 0
            && (var s2 := Write(json, Restart(json, s1.0, false).(master := true), Put("c", "3"), []);
                s2.1 && s2.0.master && s2.0.store.data == map["c" := "3"])
  {
    var s0 := FreshLeader([], true);
    var s1 := Write(json, s0, Put("a", "1"), []).0;
    UpdateMarks(json, s0, [], Put("a", "1"), []);
    FirstOperationLost(json, s1, [Put("a", "1")], Put("c", "3"), []);
    WriteResult(json, Restart(json, s1, false).(master := true), Put("c", "3"), []);
    assert ([Put("a", "1")] + [Put("c", "3")])[1..] == [Put("c", "3")];
    Folding.One(OpEffect, map[], Put("c", "3"));
  }

  /** One unacknowledged write after a smooth life: the live map stays, the restarted one has it. */
  lemma FailedWriteReturns(json: JsonDecoder, s: Server, op: Op, arrivals: seq<Arrival>)
    requires Whole(json, s) && Clean(op) && !Acknowledged(s.raft.peers, arrivals)
    ensures var (s', success) := Write(json, s, op, arrivals);
            && !success && s'.store == s.store
            && Restart(json, s', true).store.data == OpEffect(s.store.data, op)
  {
    WriteResult(json, s, op, arrivals);
    var s' := Write(json, s, op, arrivals).0;
    RestartReplaysLog(json, s');
    CleanPerforms(json, s.store.data, op);
    assert Commands(s'.raft.logs) == Commands(s.raft.logs) + [Print(op)];
    ReplayConcat(json, map[], Commands(s.raft.logs), [Print(op)]);
    ReplayOne(json, s.store.data, Print(op));
  }

  /** After a smooth life and one more write, a restart rebuilds the live map if and only
      if that write was acknowledged or would have changed nothing. */
  lemma RestartAfterWriteIff(json: JsonDecoder, s: Server, op: Op, arrivals: seq<Arrival>)
    requires Whole(json, s) && Clean(op)
    ensures var s' := Write(json, s, op, arrivals).0;
            Restart(json, s', true).store.data == s'.store.data <==>
            Acknowledged(s.raft.peers, arrivals) || OpEffect(s.store.data, op) == s.store.data
  {
    if Acknowledged(s.raft.peers, arrivals) {
      WriteKeepsWhole(json, s, op, arrivals);
      RestartKeepsWhole(json, Write(json, s, op, arrivals).0);
    } else {
      FailedWriteReturns(json, s, op, arrivals);
    }
  }

  // ---------- What every life keeps ----------

  lemma {:induction false} LifePeers(json: JsonDecoder, s: Server, events: seq<Event>)
    requires Sound(s)
    ensures LiveAll(json, s, events).raft.peers == s.raft.peers
    decreases |events|
  {
    if events != [] {
      var e := events[0];
      LiveSound(json, s, e);
      if e.Restarted? {
        RestartKeepsLog(json, s, e.master);
      } else if e.call.Update? && s.master {
        WriteResult(json, s, e.call.op, e.call.arrivals);
      }
      LifePeers(json, Live(json, s, e), events[1..]);
    }
  }

  /** The leader's log is append-only, restarts included. */
  lemma {:induction false} LifeLogGrows(json: JsonDecoder, s: Server, events: seq<Event>)
    requires Sound(s)
    ensures s.raft.logs <= LiveAll(json, s, events).raft.logs
    decreases |events|
  {
    if events != [] {
      var e := events[0];
      LiveSound(json, s, e);
      if e.Restarted? {
        RestartKeepsLog(json, s, e.master);
      } else if e.call.Update? && s.master {
        WriteResult(json, s, e.call.op, e.call.arrivals);
      }
      LifeLogGrows(json, Live(json, s, e), events[1..]);
    }
  }

  /** The commit index never passes the log, in any life. */
  lemma {:induction false} LifeCommits(json: JsonDecoder, s: Server, events: seq<Event>)
    requires Sound(s) && 0 <= s.raft.commitIndex <= |s.raft.logs|
    ensures var r := LiveAll(json, s, events).raft; 0 <= r.commitIndex <= |r.logs|
    decreases |events|
  {
    if events != [] {
      var e := events[0];
      LiveSound(json, s, e);
      if e.Restarted? {
        RestartKeepsLog(json, s, e.master);
      } else if e.call.Update? && s.master {
        WriteCommits(json, s, e.call.op, e.call.arrivals);
        WriteResult(json, s, e.call.op, e.call.arrivals);
      }
      LifeCommits(json, Live(json, s, e), events[1..]);
    }
  }
}
