/** The leader's map refines a simple map: after any serial mix of writes, some of
    them failing to replicate, it is the in-order fold of a subsequence of the log
    that contains every acknowledged operation, although ApplyCommittedLogs reads
    one-based indices as slice positions. */
module LeaderStore {
  import opened RaftTypes
  import opened CommandCodec
  import opened KvStore
  import Folding
  import opened LeaderState
  import opened Replication

  // ---------- Applying consecutive entries ----------

  /** Entries numbered from+1, from+2, ... */
  ghost predicate Consecutive(entries: seq<LogEntry>, from: int) {
    forall i :: 0 <= i < |entries| ==> entries[i].index == from + 1 + i
  }

  /** Consecutive entries past the store's mark are applied up to the first one the
      loop does not get past, which stops the run. */
  lemma {:induction false} ApplyAllResult(json: JsonDecoder, entries: seq<LogEntry>, last: int, st: Store, from: int)
    requires Consecutive(entries, from) && st.lastAppliedIndex <= from
    ensures var a := ApplyAll(json, entries, last, st);
            var good := GoodPrefix(json, Commands(entries));
            && (a.error.None? <==> good == |entries|)
            && a.lastApplied == (if good == 0 then last else from + good)
            && st.lastAppliedIndex <= a.store.lastAppliedIndex
            && a.store.lastAppliedIndex <= (if good == 0 then st.lastAppliedIndex else from + good)
            && a.store.data == Replay(json, st.data, Commands(entries)[..good])
    decreases |entries|
  {
    if entries != [] {
      var c, rest := entries[0].command, entries[1..];
      assert Commands(entries) == [c] + Commands(rest);
      ApplyFirst(json, entries, last, st);
      if Passes(json, c) {
        ApplyAllResult(json, rest, entries[0].index, ApplyEntry(json, st, entries[0]).0, from + 1);
        GoodNext(json, st.data, c, Commands(rest));
      } else {
        assert Commands(entries)[..0] == [];
      }
    }
  }

  lemma {:induction false} ApplyFirst(json: JsonDecoder, entries: seq<LogEntry>, last: int, st: Store)
    requires entries != [] && entries[0].index > st.lastAppliedIndex
    ensures var a := ApplyAll(json, entries, last, st);
            var st' := ApplyEntry(json, st, entries[0]).0;
            && st'.data == Perform(json, st.data, entries[0].command)
            && st.lastAppliedIndex <= st'.lastAppliedIndex <= entries[0].index
            && if Passes(json, entries[0].command) then a == ApplyAll(json, entries[1..], entries[0].index, st')
               else a.error.Some? && a == Applied(last, st, a.error)
  {
  }

  lemma {:induction false} SkipFirst(json: JsonDecoder, entries: seq<LogEntry>, last: int, st: Store)
    requires entries != [] && entries[0].index <= st.lastAppliedIndex
    ensures ApplyAll(json, entries, last, st) == ApplyAll(json, entries[1..], entries[0].index, st)
  {
    ApplyNext(json, entries, 0, last, st);
    assert entries[0..] == entries;
  }

  /** Entries the store has passed are skipped; only `last` moves over them. */
  lemma {:induction false} SkipPassed(json: JsonDecoder, entries: seq<LogEntry>, last: int, st: Store, from: int,
        k: nat)
    requires Consecutive(entries, from) && k <= |entries| && (k > 0 ==> from + k <= st.lastAppliedIndex)
    ensures ApplyAll(json, entries, last, st)
         == ApplyAll(json, entries[k..], if k == 0 then last else from + k, st)
    decreases k
  {
    if k == 0 {
      assert entries[0..] == entries;
    } else {
      SkipFirst(json, entries, last, st);
      SkipPassed(json, entries[1..], entries[0].index, st, from + 1, k - 1);
      assert entries[1..][k - 1..] == entries[k..];
    }
  }

  // ---------- One write ----------

  /** What every reachable leader state satisfies, whatever its commands say.  The store
      may be ahead of lastApplied: a log synchronisation moves only the store. */
  ghost predicate Sound(s: Server) {
    && Indexed(s.raft.logs)
    && 0 <= s.raft.lastApplied <= |s.raft.logs|
    && s.store.lastAppliedIndex <= |s.raft.logs|
  }

  /** The slice position from which a committing write applies entries: those before
      it are not collected, or refused by the store as passed. */
  function From(s: Server): int { Max(s.raft.lastApplied + 1, s.store.lastAppliedIndex) }

  /** Where lastApplied ends when a write applies nothing: behind the refused entries. */
  function Skipped(s: Server): int {
    if s.store.lastAppliedIndex > s.raft.lastApplied + 1 then s.store.lastAppliedIndex else s.raft.lastApplied
  }

  function NewEntry(s: Server, op: Op): LogEntry {
    LogEntry(s.raft.currentTerm, |s.raft.logs| + 1, Print(op))
  }

  /** The entries a committing write reaches: from this slice position on. */
  function Reached(logs: seq<LogEntry>, from: int): seq<LogEntry>
    requires from >= 0
  {
    if from < |logs| then logs[from..] else []
  }

  lemma SkipTo(json: JsonDecoder, logs: seq<LogEntry>, la: nat, st: Store)
    requires Indexed(logs) && la <= |logs| && st.lastAppliedIndex <= |logs|
    ensures var mark := st.lastAppliedIndex;
            ApplyAll(json, Reached(logs, la + 1), la, st) ==
            ApplyAll(json, Reached(logs, Max(la + 1, mark)), if mark > la + 1 then mark else la, st)
  {
    var mark := st.lastAppliedIndex;
    if mark > la + 1 {
      var entries, k := logs[la + 1..], mark - la - 1;
      assert Reached(logs, la + 1) == entries && Reached(logs, mark) == entries[k..];
      SkipPassed(json, entries, la, st, la + 1, k);
    }
  }

  lemma PendingIsReached(logs: seq<LogEntry>, la: nat)
    ensures Pending(logs, la, |logs|) == Reached(logs, la + 1)
  {
  }

  /** The apply loop skips what the store has passed and then runs over the rest. */
  lemma PendingResult(json: JsonDecoder, s: Server)
    requires Sound(s)
    ensures ApplyAll(json, Pending(s.raft.logs, s.raft.lastApplied, |s.raft.logs|), s.raft.lastApplied, s.store)
         == ApplyAll(json, Reached(s.raft.logs, From(s)), Skipped(s), s.store)
  {
    PendingIsReached(s.raft.logs, s.raft.lastApplied);
    SkipTo(json, s.raft.logs, s.raft.lastApplied, s.store);
  }

  lemma CommitResult(json: JsonDecoder, s: Server)
    requires Sound(s)
    ensures var (s', out) := Commit(json, s, |s.raft.logs|);
            var commands := Commands(Reached(s.raft.logs, From(s)));
            var good := GoodPrefix(json, commands);
            && (out.error.None? <==> good == |commands|)
            && out.commit == (if out.error.None? then |s.raft.logs| else -1)
            && Sound(s')
            && s'.raft.logs == s.raft.logs && s'.raft.peers == s.raft.peers && s'.master == s.master
            && s'.raft.nextIndex == s.raft.nextIndex && s'.raft.currentTerm == s.raft.currentTerm
            && s'.raft.lastApplied == (if good == 0 then Skipped(s) else From(s) + good)
            && s'.store.data == Replay(json, s.store.data, commands[..good])
            && (good == 0 ==> s'.store.lastAppliedIndex == s.store.lastAppliedIndex)
            && s'.raft == s.raft.(commitIndex := |s.raft.logs|, lastApplied := s'.raft.lastApplied)
  {
    PendingResult(json, s);
    ApplyAllResult(json, Reached(s.raft.logs, From(s)), Skipped(s), s.store, From(s));
  }

  /** The state in which a write's commit starts. */
  function Rounded(s: Server, op: Op, arrivals: seq<Arrival>): Server {
    var r := s.raft.(logs := s.raft.logs + [NewEntry(s, op)]);
    s.(raft := if r.peers == [] then r else HandleAll(ContactAll(r, r.peers), |r.logs|, arrivals))
  }

  lemma RoundedFrame(s: Server, op: Op, arrivals: seq<Arrival>)
    requires Sound(s)
    ensures var s1 := Rounded(s, op, arrivals);
            && Sound(s1) && s1.store == s.store && s1.master == s.master
            && s1.raft.logs == s.raft.logs + [NewEntry(s, op)]
            && s1.raft.lastApplied == s.raft.lastApplied && s1.raft.peers == s.raft.peers
            && From(s1) == From(s) && Skipped(s1) == Skipped(s)
  {
    var r := s.raft.(logs := s.raft.logs + [NewEntry(s, op)]);
    ContactAllFrame(r, r.peers);
    HandleAllFrame(ContactAll(r, r.peers), |r.logs|, arrivals);
  }

  lemma WriteUnfolds(json: JsonDecoder, s: Server, op: Op, arrivals: seq<Arrival>)
    requires Sound(s) && s.master
    ensures Rounded(s, op, arrivals).raft.lastApplied >= 0
    ensures Write(json, s, op, arrivals) ==
            if !Acknowledged(s.raft.peers, arrivals) then (Rounded(s, op, arrivals), false)
            else
              var (s2, out) := Commit(json, Rounded(s, op, arrivals), |s.raft.logs| + 1);
              if out.error.Some? || out.commit < |s.raft.logs| + 1 then (s2, false)
              else (s2.(store := s2.store.(data := OpEffect(s2.store.data, op))), true)
  {
    RoundedFrame(s, op, arrivals);
    AppendsAtEnd(s.raft.logs, NewEntry(s, op));
  }

  lemma CommittedWrite(json: JsonDecoder, s: Server, op: Op, arrivals: seq<Arrival>)
    requires Sound(s) && s.master && Acknowledged(s.raft.peers, arrivals)
    ensures var (s', success) := Write(json, s, op, arrivals);
            var logs := s.raft.logs + [NewEntry(s, op)];
            var commands := Commands(Reached(logs, From(s)));
            var good := GoodPrefix(json, commands);
            && Sound(s') && s'.raft.logs == logs && s'.raft.peers == s.raft.peers && s'.master
            && (success <==> good == |commands|)
            && s'.raft.lastApplied == (if good == 0 then Skipped(s) else From(s) + good)
            && (good == 0 ==> s'.store.lastAppliedIndex == s.store.lastAppliedIndex)
            && s'.store.data == (var data := Replay(json, s.store.data, commands[..good]);
                                 if success then OpEffect(data, op) else data)
  {
    WriteUnfolds(json, s, op, arrivals);
    RoundedFrame(s, op, arrivals);
    CommitResult(json, Rounded(s, op, arrivals));
  }

  /** A write on a leader is acknowledged if and only if enough peers answered and the
      apply loop gets past every entry it reaches, and then the map has run through those
      entries and the operation itself; a write short of peers leaves the map alone. */
  lemma WriteResult(json: JsonDecoder, s: Server, op: Op, arrivals: seq<Arrival>)
    requires Sound(s) && s.master
    ensures var (s', success) := Write(json, s, op, arrivals);
            var logs := s.raft.logs + [NewEntry(s, op)];
            var commands := Commands(Reached(logs, From(s)));
            var good := GoodPrefix(json, commands);
            && Sound(s') && s'.raft.logs == logs && s'.raft.peers == s.raft.peers && s'.master
            && (success <==> Acknowledged(s.raft.peers, arrivals) && good == |commands|)
            && (!Acknowledged(s.raft.peers, arrivals) ==>
                 && s'.store == s.store
                 && s'.raft.lastApplied == s.raft.lastApplied)
            && (Acknowledged(s.raft.peers, arrivals) ==>
                 && s'.raft.lastApplied == (if good == 0 then Skipped(s) else From(s) + good)
                 && (good == 0 ==> s'.store.lastAppliedIndex == s.store.lastAppliedIndex)
                 && s'.store.data == (var data := Replay(json, s.store.data, commands[..good]);
                                      if success then OpEffect(data, op) else data))
  {
    if Acknowledged(s.raft.peers, arrivals) {
      CommittedWrite(json, s, op, arrivals);
    } else {
      WriteUnfolds(json, s, op, arrivals);
      RoundedFrame(s, op, arrivals);
    }
  }

  // ---------- Runs ----------

  /** Client calls and changes of the configured master flag; reads change nothing. */
  datatype Call = Update(op: Op, arrivals: seq<Arrival>) | SetMaster(flag: bool) | Read(key: string)

  function Serve(json: JsonDecoder, s: Server, call: Call): (Server, bool)
    requires s.raft.lastApplied >= 0
  {
    match call
    case Update(op, arrivals) => Write(json, s, op, arrivals)
    case SetMaster(flag) => (s.(master := flag), false)
    case Read(_) => (s, false)
  }

  lemma ServeSound(json: JsonDecoder, s: Server, call: Call)
    requires Sound(s)
    ensures Sound(Serve(json, s, call).0)
  {
    if call.Update? && s.master {
      WriteResult(json, s, call.op, call.arrivals);
    }
  }

  function Run(json: JsonDecoder, s: Server, calls: seq<Call>): (s': Server)
    requires Sound(s)
    ensures Sound(s')
    decreases |calls|
  {
    if calls == [] then s
    else
      ServeSound(json, s, calls[0]);
      Run(json, Serve(json, s, calls[0]).0, calls[1..])
  }

  // ---------- A log entry that blocks the leader for good ----------

  ghost predicate Blocked(json: JsonDecoder, s: Server)
    requires Sound(s)
  {
    && From(s) == s.raft.lastApplied + 1 < |s.raft.logs|
    && !Passes(json, s.raft.logs[s.raft.lastApplied + 1].command)
  }

  lemma BlockedStep(json: JsonDecoder, s: Server, call: Call)
    requires Sound(s) && Blocked(json, s)
    ensures var (s', success) := Serve(json, s, call);
            Sound(s') && Blocked(json, s') && !success && s'.store == s.store
  {
    if call.Update? && s.master {
      WriteResult(json, s, call.op, call.arrivals);
      var logs := s.raft.logs + [NewEntry(s, call.op)];
      var commands := Commands(Reached(logs, From(s)));
      assert commands[0] == s.raft.logs[s.raft.lastApplied + 1].command;
      assert GoodPrefix(json, commands) == 0;
      assert commands[..0] == [];
    }
  }

  /** Once the loop does not get past the entry two past lastApplied, and the store has not
      passed the one before it, no later write is ever acknowledged and the map never
      changes again. */
  lemma {:induction false} BlockedForever(json: JsonDecoder, s: Server, calls: seq<Call>, next: Call)
    requires Sound(s) && Blocked(json, s)
    ensures var s' := Run(json, s, calls);
            s'.store == s.store && !Serve(json, s', next).1
    decreases |calls|
  {
    if calls == [] {
      BlockedStep(json, s, next);
    } else {
      BlockedStep(json, s, calls[0]);
      BlockedForever(json, Serve(json, s, calls[0]).0, calls[1..], next);
    }
  }

  /** A set the loop does not get past is acknowledged when lastApplied is the log's
      length, and blocks the leader for good when it is one less. */
  lemma UnparsableWrite(json: JsonDecoder, s: Server, op: Op, arrivals: seq<Arrival>)
    requires Sound(s) && s.master && Acknowledged(s.raft.peers, arrivals) && !Passes(json, Print(op))
    ensures var (s', success) := Write(json, s, op, arrivals);
            && Sound(s')
            && (s.raft.lastApplied == |s.raft.logs| ==> success)
            && (s.raft.lastApplied == |s.raft.logs| - 1 ==> !success && Blocked(json, s'))
  {
    WriteResult(json, s, op, arrivals);
    var logs := s.raft.logs + [NewEntry(s, op)];
    var commands := Commands(Reached(logs, From(s)));
    if s.raft.lastApplied == |s.raft.logs| - 1 {
      assert commands[0] == Print(op);
      assert GoodPrefix(json, commands) == 0;
    }
  }

  // ---------- Refinement ----------

  /** Keys and values that survive printing and parsing. */
  predicate Clean(op: Op) {
    match op
    case Put(k, v) => ':' !in k && ':' !in v
    case Remove(k) => ':' !in k
  }

  lemma CleanPerforms(json: JsonDecoder, data: Data, op: Op)
    requires Clean(op)
    ensures Parses(json, Print(op)) && Perform(json, data, Print(op)) == OpEffect(data, op)
  {
    match op
    case Put(k, v) => SetRoundTrip(json, k, v);
    case Remove(k) => DeleteRoundTrip(json, k);
  }

  ghost predicate Within(indices: seq<nat>, max: int) {
    forall i :: 0 <= i < |indices| ==> 1 <= indices[i] <= max
  }

  /** The operations at the given log indices. */
  ghost function Pick(ops: seq<Op>, indices: seq<nat>): (r: seq<Op>)
    requires Within(indices, |ops|)
    ensures |r| == |indices| && forall i :: 0 <= i < |r| ==> r[i] == ops[indices[i] - 1]
  {
    seq(|indices|, i requires 0 <= i < |indices| => ops[indices[i] - 1])
  }

  /** The map after performing those operations in that order. */
  ghost function Fold(ops: seq<Op>, indices: seq<nat>): Data
    requires Within(indices, |ops|)
  {
    Folding.All(OpEffect, map[], Pick(ops, indices))
  }

  /** What happened so far: every operation logged, the indices applied, those acknowledged. */
  datatype History = History(ops: seq<Op>, applied: seq<nat>, acked: set<nat>)

  ghost predicate Ascending(indices: seq<nat>, max: int) {
    && (forall i, j :: 0 <= i < j < |indices| ==> indices[i] < indices[j])
    && Within(indices, max)
  }

  ghost predicate LogsOps(logs: seq<LogEntry>, ops: seq<Op>) {
    |logs| == |ops| && forall i :: 0 <= i < |logs| ==> logs[i].command == Print(ops[i]) && Clean(ops[i])
  }

  /** The server's map is the fold of an ascending subsequence of its log that holds
      every acknowledged operation; nothing a write would reach was applied. */
  ghost predicate Refines(s: Server, h: History) {
    && Sound(s)
    && LogsOps(s.raft.logs, h.ops)
    && Ascending(h.applied, |h.ops|)
    && Within(h.applied, From(s))
    && (forall a :: a in h.acked ==> a in h.applied)
    && s.store.data == Fold(h.ops, h.applied)
  }

  function Range(from: nat, to: nat): (r: seq<nat>)
    ensures |r| == (if from <= to then to - from + 1 else 0)
    ensures forall i :: 0 <= i < |r| ==> r[i] == from + i
  {
    if from <= to then seq(to - from + 1, i requires i >= 0 => from + i) else []
  }

  /** The indices an acknowledged write of index n applies. */
  function Added(from: nat, n: nat): (r: seq<nat>)
    requires n >= 1
    ensures |r| > 0 && r[|r| - 1] == n
  {
    if from < n then Range(from + 1, n) else [n]
  }

  function Record(s: Server, h: History, call: Call): History
    requires s.raft.lastApplied >= 0
  {
    if !call.Update? || !s.master then h
    else
      var n := |h.ops| + 1;
      var h1 := h.(ops := h.ops + [call.op]);
      if !Acknowledged(s.raft.peers, call.arrivals) then h1
      else h1.(applied := h.applied + Added(From(s), n), acked := h.acked + {n})
  }

  lemma FoldGrows(ops: seq<Op>, more: seq<Op>, indices: seq<nat>)
    requires Within(indices, |ops|)
    ensures Fold(ops + more, indices) == Fold(ops, indices)
  {
    assert Pick(ops + more, indices) == Pick(ops, indices);
  }

  /** Performing the command is performing the operation. */
  ghost predicate Encodes(json: JsonDecoder, command: string, op: Op) {
    Parses(json, command) && forall data :: Perform(json, data, command) == OpEffect(data, op)
  }

  ghost predicate AllEncode(json: JsonDecoder, commands: seq<string>, ops: seq<Op>) {
    |commands| == |ops| && forall i :: 0 <= i < |ops| ==> Encodes(json, commands[i], ops[i])
  }

  /** Replaying these commands on any map is performing these operations on it. */
  ghost predicate Performs(json: JsonDecoder, commands: seq<string>, ops: seq<Op>) {
    forall data :: Replay(json, data, commands) == Folding.All(OpEffect, data, ops)
  }

  lemma EncodesPerforms(json: JsonDecoder, commands: seq<string>, ops: seq<Op>)
    requires AllEncode(json, commands, ops)
    ensures Performs(json, commands, ops)
  {
    forall data ensures Replay(json, data, commands) == Folding.All(OpEffect, data, ops) {
      SliceEncodes(json, data, commands, ops);
    }
  }

  lemma {:induction false} SliceEncodes(json: JsonDecoder, data: Data, commands: seq<string>, ops: seq<Op>)
    requires AllEncode(json, commands, ops)
    ensures Folding.All(OpEffect, data, ops) == Replay(json, data, commands)
  {
    forall i, d: Data | 0 <= i < |ops|
      ensures OpEffect(d, ops[i]) == Performer(json)(d, commands[i])
    {
      assert Encodes(json, commands[i], ops[i]);
    }
    Folding.Same(OpEffect, Performer(json), data, ops, commands);
  }

  lemma CleanEncodes(json: JsonDecoder, op: Op)
    requires Clean(op)
    ensures Encodes(json, Print(op), op)
  {
    CleanPerforms(json, map[], op);
    forall data { CleanPerforms(json, data, op); }
  }

  /** A stretch of a log of clean operations performs exactly those operations, and all of it parses. */
  lemma LogPerforms(json: JsonDecoder, logs: seq<LogEntry>, ops: seq<Op>, lo: nat)
    requires LogsOps(logs, ops) && lo <= |logs|
    ensures Performs(json, Commands(logs[lo..]), ops[lo..])
    ensures GoodPrefix(json, Commands(logs[lo..])) == |logs| - lo
  {
    var commands := Commands(logs[lo..]);
    forall i | 0 <= i < |commands| ensures Encodes(json, commands[i], ops[lo..][i]) {
      CleanEncodes(json, ops[lo + i]);
    }
    EncodesPerforms(json, commands, ops[lo..]);
    AllGood(json, commands);
  }

  lemma {:induction false} AllGood(json: JsonDecoder, commands: seq<string>)
    requires forall i :: 0 <= i < |commands| ==> Passes(json, commands[i])
    ensures GoodPrefix(json, commands) == |commands|
  {
  }

  lemma FoldSnoc(ops: seq<Op>, indices: seq<nat>, i: nat)
    requires Within(indices, |ops|) && 1 <= i <= |ops|
    ensures Fold(ops, indices + [i]) == OpEffect(Fold(ops, indices), ops[i - 1])
  {
    assert Pick(ops, indices + [i]) == Pick(ops, indices) + [ops[i - 1]];
    Folding.Concat(OpEffect, map[], Pick(ops, indices), [ops[i - 1]]);
    Folding.One(OpEffect, Fold(ops, indices), ops[i - 1]);
  }

  /** Replaying the log from position lo extends the fold by indices lo+1..|ops|. */
  lemma FoldReplays(json: JsonDecoder, commands: seq<string>, ops: seq<Op>, indices: seq<nat>, lo: nat)
    requires lo <= |ops| && Performs(json, commands, ops[lo..])
    requires Within(indices, |ops|)
    ensures Fold(ops, indices + Range(lo + 1, |ops|)) == Replay(json, Fold(ops, indices), commands)
  {
    assert Pick(ops, indices + Range(lo + 1, |ops|)) == Pick(ops, indices) + ops[lo..];
    Folding.Concat(OpEffect, map[], Pick(ops, indices), ops[lo..]);
  }

  lemma EffectTwice(data: Data, op: Op)
    ensures OpEffect(OpEffect(data, op), op) == OpEffect(data, op)
  {
  }

  lemma FoldPast(json: JsonDecoder, commands: seq<string>, ops: seq<Op>, applied: seq<nat>, lo: nat)
    requires lo < |ops| && Within(applied, |ops|) && Performs(json, commands, ops[lo..])
    ensures Within(applied + Range(lo + 1, |ops|), |ops|)
    ensures Fold(ops, applied + Range(lo + 1, |ops|)) ==
        OpEffect(Replay(json, Fold(ops, applied), commands), ops[|ops| - 1])
  {
    FoldReplays(json, commands, ops, applied, lo);
    LastEffectTwice(ops, applied + Range(lo + 1, |ops|));
  }

  /** The operations from this slice position on are the ones these commands perform. */
  ghost predicate PerformsRest(json: JsonDecoder, commands: seq<string>, ops: seq<Op>, from: nat) {
    if from < |ops| then Performs(json, commands, ops[from..]) else commands == []
  }

  /** Performing the indices brings the map to this one. */
  ghost predicate FoldsTo(ops: seq<Op>, indices: seq<nat>, data: Data) {
    Within(indices, |ops|) && Fold(ops, indices) == data
  }

  lemma PastFoldsTo(json: JsonDecoder, ops: seq<Op>, applied: seq<nat>, lo: nat, commands: seq<string>)
    requires lo < |ops| && Within(applied, |ops|) && Performs(json, commands, ops[lo..])
    ensures FoldsTo(ops, applied + Range(lo + 1, |ops|),
        OpEffect(Replay(json, Fold(ops, applied), commands), ops[|ops| - 1]))
  {
    FoldPast(json, commands, ops, applied, lo);
  }

  lemma LastFoldsTo(ops: seq<Op>, applied: seq<nat>)
    requires ops != [] && Within(applied, |ops|)
    ensures FoldsTo(ops, applied + [|ops|], OpEffect(Fold(ops, applied), ops[|ops| - 1]))
  {
    FoldSnoc(ops, applied, |ops|);
  }

  /** What the acknowledged write adds to the fold: everything it reaches, ending with itself. */
  lemma CommittedFold(json: JsonDecoder, ops: seq<Op>, applied: seq<nat>, from: nat, commands: seq<string>)
    requires ops != [] && Within(applied, |ops|) && PerformsRest(json, commands, ops, from)
    ensures FoldsTo(ops, applied + Added(from, |ops|),
        OpEffect(Replay(json, Fold(ops, applied), commands), ops[|ops| - 1]))
  {
    if from < |ops| {
      PastFoldsTo(json, ops, applied, from, commands);
    } else {
      LastFoldsTo(ops, applied);
    }
  }

  lemma ReachedPerforms(json: JsonDecoder, logs: seq<LogEntry>, ops: seq<Op>, from: nat)
    requires LogsOps(logs, ops)
    ensures var commands := Commands(Reached(logs, from));
            GoodPrefix(json, commands) == |commands| && PerformsRest(json, commands, ops, from)
  {
    if from < |ops| {
      LogPerforms(json, logs, ops, from);
    }
  }

  lemma LastEffectTwice(ops: seq<Op>, indices: seq<nat>)
    requires Within(indices, |ops|) && indices != [] && indices[|indices| - 1] == |ops|
    ensures OpEffect(Fold(ops, indices), ops[|ops| - 1]) == Fold(ops, indices)
  {
  }

  lemma UpdateData(json: JsonDecoder, s: Server, h: History, op: Op)
    requires From(s) >= 0
    requires LogsOps(s.raft.logs, h.ops) && Clean(op) && Within(h.applied, |h.ops|) &&
        s.store.data == Fold(h.ops, h.applied)
    ensures var commands := Commands(Reached(s.raft.logs + [NewEntry(s, op)], From(s)));
            var good := GoodPrefix(json, commands);
            var applied := h.applied + Added(From(s), |h.ops| + 1);
            && good == |commands|
            && FoldsTo(h.ops + [op], applied, OpEffect(Replay(json, s.store.data, commands[..good]), op))
  {
    var logs, ops := s.raft.logs + [NewEntry(s, op)], h.ops + [op];
    LogsOpsGrow(s, h, op);
    FoldGrows(h.ops, [op], h.applied);
    var commands := Commands(Reached(logs, From(s)));
    ReachedPerforms(json, logs, ops, From(s));
    CommittedFold(json, ops, h.applied, From(s), commands);
    assert commands[..|commands|] == commands;
  }

  lemma AddedAscends(applied: seq<nat>, from: nat, n: nat)
    requires Ascending(applied, n - 1) && Within(applied, from) && n >= 1
    ensures Ascending(applied + Added(from, n), n) && n in Added(from, n)
  {
  }

  /** What a clean write does to the log and lastApplied, and when it is acknowledged. */
  lemma UpdateMarks(json: JsonDecoder, s: Server, ops: seq<Op>, op: Op, arrivals: seq<Arrival>)
    requires Sound(s) && LogsOps(s.raft.logs, ops) && s.master && Clean(op)
    ensures var (s', success) := Write(json, s, op, arrivals);
            && Sound(s') && s'.raft.logs == s.raft.logs + [NewEntry(s, op)]
            && (success <==> Acknowledged(s.raft.peers, arrivals))
            && (!success ==> s'.store == s.store && s'.raft.lastApplied == s.raft.lastApplied)
            && (success ==> s'.raft.lastApplied == if s.raft.lastApplied < |ops| then |ops| + 1 else s.raft.lastApplied)
  {
    WriteResult(json, s, op, arrivals);
    var logs := s.raft.logs + [NewEntry(s, op)];
    assert LogsOps(logs, ops + [op]);
    ReachedPerforms(json, logs, ops + [op], From(s));
  }

  /** What an acknowledged clean write does to the map. */
  lemma UpdateFolds(json: JsonDecoder, s: Server, h: History, op: Op, arrivals: seq<Arrival>)
    requires Refines(s, h) && s.master && Clean(op) && Acknowledged(s.raft.peers, arrivals)
    ensures FoldsTo(h.ops + [op], h.applied + Added(From(s), |h.ops| + 1),
        Write(json, s, op, arrivals).0.store.data)
  {
    WriteResult(json, s, op, arrivals);
    UpdateData(json, s, h, op);
  }

  lemma AckedApplied(applied: seq<nat>, more: seq<nat>, acked: set<nat>, n: nat)
    requires (forall a :: a in acked ==> a in applied) && n in more
    ensures forall a :: a in acked + {n} ==> a in applied + more
  {
  }

  lemma CommittedRefines(s: Server, h: History, s': Server, op: Op)
    requires Refines(s, h) && Clean(op) && Sound(s') && s'.raft.logs == s.raft.logs + [NewEntry(s, op)]
    requires |h.ops| <= s'.raft.lastApplied
    requires FoldsTo(h.ops + [op], h.applied + Added(From(s), |h.ops| + 1), s'.store.data)
    ensures var n := |h.ops| + 1;
            Refines(s', History(h.ops + [op], h.applied + Added(From(s), n), h.acked + {n}))
  {
    var n := |h.ops| + 1;
    var more := Added(From(s), n);
    LogsOpsGrow(s, h, op);
    AddedAscends(h.applied, From(s), n);
    AckedApplied(h.applied, more, h.acked, n);
  }

  lemma UncommittedRefines(s: Server, h: History, s': Server, op: Op)
    requires Refines(s, h) && Clean(op) && Sound(s') && s'.raft.logs == s.raft.logs + [NewEntry(s, op)]
    requires s'.store == s.store && s'.raft.lastApplied == s.raft.lastApplied
    ensures Refines(s', h.(ops := h.ops + [op]))
  {
    LogsOpsGrow(s, h, op);
    FoldGrows(h.ops, [op], h.applied);
  }

  lemma CommittedUpdate(json: JsonDecoder, s: Server, h: History, op: Op, arrivals: seq<Arrival>)
    requires Refines(s, h) && s.master && Clean(op) && Acknowledged(s.raft.peers, arrivals)
    ensures var n := |h.ops| + 1;
            Refines(Write(json, s, op, arrivals).0,
                History(h.ops + [op], h.applied + Added(From(s), n), h.acked + {n}))
  {
    UpdateMarks(json, s, h.ops, op, arrivals);
    UpdateFolds(json, s, h, op, arrivals);
    CommittedRefines(s, h, Write(json, s, op, arrivals).0, op);
  }

  lemma UncommittedUpdate(json: JsonDecoder, s: Server, h: History, op: Op, arrivals: seq<Arrival>)
    requires Refines(s, h) && s.master && Clean(op) && !Acknowledged(s.raft.peers, arrivals)
    ensures Refines(Write(json, s, op, arrivals).0, h.(ops := h.ops + [op]))
  {
    UpdateMarks(json, s, h.ops, op, arrivals);
    UncommittedRefines(s, h, Write(json, s, op, arrivals).0, op);
  }

  lemma UpdateRefines(json: JsonDecoder, s: Server, h: History, op: Op, arrivals: seq<Arrival>)
    requires Refines(s, h) && s.master && Clean(op)
    ensures Refines(Write(json, s, op, arrivals).0, Record(s, h, Update(op, arrivals)))
  {
    if Acknowledged(s.raft.peers, arrivals) {
      CommittedUpdate(json, s, h, op, arrivals);
    } else {
      UncommittedUpdate(json, s, h, op, arrivals);
    }
  }

  lemma LogsOpsGrow(s: Server, h: History, op: Op)
    requires LogsOps(s.raft.logs, h.ops) && Clean(op)
    ensures LogsOps(s.raft.logs + [NewEntry(s, op)], h.ops + [op])
  {
  }

  lemma ServeRefines(json: JsonDecoder, s: Server, h: History, call: Call)
    requires Refines(s, h) && (call.Update? ==> Clean(call.op))
    ensures Refines(Serve(json, s, call).0, Record(s, h, call))
  {
    if call.Update? && s.master {
      UpdateRefines(json, s, h, call.op, call.arrivals);
    }
  }

  lemma RecordAcks(s: Server, h: History, op: Op, arrivals: seq<Arrival>)
    requires s.raft.lastApplied >= 0 && s.master && Acknowledged(s.raft.peers, arrivals)
    ensures var h' := Record(s, h, Update(op, arrivals));
            h'.ops == h.ops + [op] && h'.acked == h.acked + {|h.ops| + 1}
  {
  }

  lemma AckedAnswers(json: JsonDecoder, s: Server, h: History, op: Op, arrivals: seq<Arrival>)
    requires Sound(s) && LogsOps(s.raft.logs, h.ops) && s.master && Clean(op) && Acknowledged(s.raft.peers, arrivals)
    ensures var (s', success) := Write(json, s, op, arrivals);
            var h' := Record(s, h, Update(op, arrivals));
            && success && |h'.ops| in h'.acked
            && |s'.raft.logs| - 1 <= s'.raft.lastApplied <= |s'.raft.logs|
  {
    UpdateMarks(json, s, h.ops, op, arrivals);
    RecordAcks(s, h, op, arrivals);
  }

  lemma UnackedAnswers(json: JsonDecoder, s: Server, h: History, op: Op, arrivals: seq<Arrival>)
    requires Sound(s) && LogsOps(s.raft.logs, h.ops) && s.master && Clean(op) && !Acknowledged(s.raft.peers, arrivals)
    ensures var (s', success) := Write(json, s, op, arrivals);
            !success && s'.store == s.store && Record(s, h, Update(op, arrivals)).applied == h.applied
  {
    UpdateMarks(json, s, h.ops, op, arrivals);
  }

  /** Exactly the writes made on the master with enough peers are acknowledged; each
      is recorded and leaves lastApplied at the log's length or one short of it;
      everything else leaves the map and the applied indices alone. */
  lemma ServeAnswers(json: JsonDecoder, s: Server, h: History, call: Call)
    requires Sound(s) && LogsOps(s.raft.logs, h.ops) && (call.Update? ==> Clean(call.op))
    ensures var (s', success) := Serve(json, s, call);
            var h' := Record(s, h, call);
            && (success <==> call.Update? && s.master && Acknowledged(s.raft.peers, call.arrivals))
            && (success ==> |h'.ops| in h'.acked && |s'.raft.logs| - 1 <= s'.raft.lastApplied <= |s'.raft.logs|)
            && (!success ==> s'.store == s.store && h'.applied == h.applied)
  {
    if call.Update? && s.master {
      if Acknowledged(s.raft.peers, call.arrivals) {
        AckedAnswers(json, s, h, call.op, call.arrivals);
      } else {
        UnackedAnswers(json, s, h, call.op, call.arrivals);
      }
    }
  }

  function RecordAll(json: JsonDecoder, s: Server, h: History, calls: seq<Call>): History
    requires Sound(s)
    decreases |calls|
  {
    if calls == [] then h
    else
      ServeSound(json, s, calls[0]);
      RecordAll(json, Serve(json, s, calls[0]).0, Record(s, h, calls[0]), calls[1..])
  }

  lemma {:induction false} RunRefines(json: JsonDecoder, s: Server, h: History, calls: seq<Call>)
    requires Refines(s, h) && forall c :: c in calls && c.Update? ==> Clean(c.op)
    ensures Refines(Run(json, s, calls), RecordAll(json, s, h, calls))
    decreases |calls|
  {
    if calls != [] {
      ServeRefines(json, s, h, calls[0]);
      RunRefines(json, Serve(json, s, calls[0]).0, Record(s, h, calls[0]), calls[1..]);
    }
  }

  // ---------- What a reader sees ----------

  predicate Touches(op: Op, key: string) { op.key == key }

  /** The last applied index that touches the key, 0 when none does. */
  ghost function LastOn(ops: seq<Op>, indices: seq<nat>, key: string): (r: nat)
    requires Within(indices, |ops|)
    ensures r == 0 || (r in indices && Touches(ops[r - 1], key))
  {
    if indices == [] then 0
    else
      var n := |indices| - 1;
      if Touches(ops[indices[n] - 1], key) then indices[n] else LastOn(ops, indices[..n], key)
  }

  lemma {:induction false} LastOnSnoc(ops: seq<Op>, indices: seq<nat>, i: nat, key: string)
    requires Within(indices, |ops|) && 1 <= i <= |ops|
    ensures Within(indices + [i], |ops|)
    ensures LastOn(ops, indices + [i], key) == if Touches(ops[i - 1], key) then i else LastOn(ops, indices, key)
  {
  }

  /** A key reads as operation number b left it; 0 stands for no operation. */
  ghost predicate ReadsAs(data: Data, key: string, ops: seq<Op>, b: nat)
    requires b <= |ops|
  {
    && (key in data <==> b > 0 && ops[b - 1].Put?)
    && (key in data ==> data[key] == ops[b - 1].value)
  }

  lemma EffectReads(data: Data, key: string, ops: seq<Op>, b: nat, i: nat)
    requires b <= |ops| && ReadsAs(data, key, ops, b) && 1 <= i <= |ops|
    ensures ReadsAs(OpEffect(data, ops[i - 1]), key, ops, if Touches(ops[i - 1], key) then i else b)
  {
  }

  lemma {:induction false} FoldReads(ops: seq<Op>, indices: seq<nat>, key: string)
    requires Within(indices, |ops|)
    ensures LastOn(ops, indices, key) <= |ops| && ReadsAs(Fold(ops, indices), key, ops, LastOn(ops, indices, key))
  {
    if indices != [] {
      var n := |indices| - 1;
      var front, i := indices[..n], indices[n];
      FoldReads(ops, front, key);
      assert indices == front + [i];
      FoldSnoc(ops, front, i);
      LastOnSnoc(ops, front, i, key);
      EffectReads(Fold(ops, front), key, ops, LastOn(ops, front, key), i);
    } else {
      assert Pick(ops, indices) == [];
    }
  }

  lemma {:induction false} LastOnIsLast(ops: seq<Op>, indices: seq<nat>, key: string, a: nat)
    requires Ascending(indices, |ops|) && a in indices && Touches(ops[a - 1], key)
    ensures LastOn(ops, indices, key) >= a
  {
    var n := |indices| - 1;
    if !Touches(ops[indices[n] - 1], key) {
      assert a in indices[..n];
      LastOnIsLast(ops, indices[..n], key, a);
    }
  }

  const NO_HISTORY := History([], [], {})

  function FreshLeader(peers: seq<string>, master: bool): Server {
    Server(Raft(0, LeaderState.NOBODY, [], 0, 0, map[], map[], peers, master), EMPTY_STORE, master)
  }

  /** From a fresh leader, after any serial mix of calls with colon-free keys and
      values, a key reads as its last applied operation left it, and no operation
      older than an acknowledged one on that key is the one being read. */
  lemma {:induction false} LeaderRefinesMap(json: JsonDecoder, peers: seq<string>, master: bool, calls: seq<Call>,
        key: string, a: nat)
    requires forall c :: c in calls && c.Update? ==> Clean(c.op)
    ensures var s := Run(json, FreshLeader(peers, master), calls);
            var h := RecordAll(json, FreshLeader(peers, master), NO_HISTORY, calls);
            && Refines(s, h)
            && (var b := LastOn(h.ops, h.applied, key);
                && b <= |h.ops| && ReadsAs(s.store.data, key, h.ops, b)
                && (a in h.acked && Touches(h.ops[a - 1], key) ==> b >= a))
  {
    var s0 := FreshLeader(peers, master);
    RunRefines(json, s0, NO_HISTORY, calls);
    var h := RecordAll(json, s0, NO_HISTORY, calls);
    FoldReads(h.ops, h.applied, key);
    if a in h.acked && Touches(h.ops[a - 1], key) {
      LastOnIsLast(h.ops, h.applied, key, a);
    }
  }

  // ---------- No acknowledged write is lost ----------

  ghost predicate AllClean(calls: seq<Call>) {
    forall c :: c in calls && c.Update? ==> Clean(c.op)
  }

  /** The record only grows. */
  ghost predicate Extends(h: History, h': History) {
    h.ops <= h'.ops && h.acked <= h'.acked
  }

  lemma {:induction false} RecordGrows(json: JsonDecoder, s: Server, h: History, calls: seq<Call>)
    requires Sound(s)
    ensures Extends(h, RecordAll(json, s, h, calls))
    decreases |calls|
  {
    if calls != [] {
      ServeSound(json, s, calls[0]);
      RecordGrows(json, Serve(json, s, calls[0]).0, Record(s, h, calls[0]), calls[1..]);
    }
  }

  /** What is acknowledged goes on record and stays there. */
  lemma {:induction false} StaysOnRecord(json: JsonDecoder, s: Server, h: History, call: Call, after: seq<Call>)
    requires Refines(s, h) && call.Update? && Clean(call.op) && Serve(json, s, call).1 && Sound(Serve(json, s, call).0)
    ensures var h' := RecordAll(json, Serve(json, s, call).0, Record(s, h, call), after);
            var a := |h.ops| + 1;
            a <= |h'.ops| && h'.ops[a - 1] == call.op && a in h'.acked
  {
    ServeAnswers(json, s, h, call);
    RecordGrows(json, Serve(json, s, call).0, Record(s, h, call), after);
  }

  /** A key reads as left by an operation not older than any applied one on it. */
  lemma AppliedReads(ops: seq<Op>, applied: seq<nat>, a: nat) returns (b: nat)
    requires Ascending(applied, |ops|) && a in applied && 1 <= a <= |ops|
    ensures a <= b <= |ops| && Touches(ops[b - 1], ops[a - 1].key) &&
        ReadsAs(Fold(ops, applied), ops[a - 1].key, ops, b)
  {
    b := LastOn(ops, applied, ops[a - 1].key);
    FoldReads(ops, applied, ops[a - 1].key);
    LastOnIsLast(ops, applied, ops[a - 1].key, a);
  }

  lemma AckedIsApplied(s: Server, h: History, a: nat)
    requires Refines(s, h) && a in h.acked
    ensures a in h.applied && Ascending(h.applied, |h.ops|) && s.store.data == Fold(h.ops, h.applied)
  {
  }

  /** The same from any state that refines its record, as every reachable one does. */
  lemma KeptFrom(json: JsonDecoder, s: Server, h: History, call: Call, after: seq<Call>) returns (b: nat)
    requires Refines(s, h) && call.Update? && Clean(call.op) && AllClean(after) && Serve(json, s, call).1
    ensures Sound(Serve(json, s, call).0)
    ensures var s' := Run(json, Serve(json, s, call).0, after);
            var h' := RecordAll(json, Serve(json, s, call).0, Record(s, h, call), after);
            && |h.ops| < b <= |h'.ops| && h'.ops[|h.ops|] == call.op
            && Touches(h'.ops[b - 1], call.op.key) && ReadsAs(s'.store.data, call.op.key, h'.ops, b)
  {
    var s1, h1 := Serve(json, s, call).0, Record(s, h, call);
    ServeRefines(json, s, h, call);
    StaysOnRecord(json, s, h, call, after);
    RunRefines(json, s1, h1, after);
    var h' := RecordAll(json, s1, h1, after);
    AckedIsApplied(Run(json, s1, after), h', |h.ops| + 1);
    b := AppliedReads(h'.ops, h'.applied, |h.ops| + 1);
  }

  lemma FreshRefines(peers: seq<string>, master: bool)
    ensures Refines(FreshLeader(peers, master), NO_HISTORY)
  {
  }

  /** An acknowledged write is never lost: after any calls, the write, and any calls
      again, its key reads as left by that write or by a later logged one, number b. */
  lemma AcknowledgedIsKept(json: JsonDecoder, peers: seq<string>, master: bool, before: seq<Call>, call: Call,
        after: seq<Call>)
    returns (b: nat)
    requires AllClean(before) && call.Update? && Clean(call.op) && AllClean(after)
    requires Serve(json, Run(json, FreshLeader(peers, master), before), call).1
    ensures var s := Run(json, FreshLeader(peers, master), before);
            var h := RecordAll(json, FreshLeader(peers, master), NO_HISTORY, before);
            && Sound(Serve(json, s, call).0)
            && (var s' := Run(json, Serve(json, s, call).0, after);
                var h' := RecordAll(json, Serve(json, s, call).0, Record(s, h, call), after);
                && |h.ops| < b <= |h'.ops| && h'.ops[|h.ops|] == call.op
                && Touches(h'.ops[b - 1], call.op.key) && ReadsAs(s'.store.data, call.op.key, h'.ops, b))
  {
    FreshRefines(peers, master);
    RunRefines(json, FreshLeader(peers, master), NO_HISTORY, before);
    b := KeptFrom(json, Run(json, FreshLeader(peers, master), before),
                  RecordAll(json, FreshLeader(peers, master), NO_HISTORY, before), call, after);
  }
}
