/** The other AppendEntries handler, which works on RaftState and replaces
    everything after the previous entry.  It is the simple log update that the
    conflict-scanning handler of RaftStateMachine is compared with. */
module ServiceAppend {
  import opened RaftTypes
  import opened CommandCodec
  import opened KvStore
  import opened LeaderState
  import Node = RaftNode
  import FollowerLog

  function RawEntries(req: AppendRequest): (r: seq<LogEntry>)
    ensures |r| == |req.entries|
    ensures forall i :: 0 <= i < |r| ==> r[i] == LogEntry(req.term, req.prevLogIndex + 1 + i, req.entries[i])
  {
    seq(|req.entries|, i requires 0 <= i < |req.entries| =>
      LogEntry(req.term, req.prevLogIndex + 1 + i, req.entries[i]))
  }

  /** Keep what precedes the request, drop the rest, append. */
  function Replaced(logs: seq<LogEntry>, req: AppendRequest): seq<LogEntry>
    requires 0 <= req.prevLogIndex <= |logs|
  {
    logs[..req.prevLogIndex] + RawEntries(req)
  }

  /** The log part of the handler, with its reply. */
  function Update(r: Raft, req: AppendRequest): (Raft, AppendReply)
    requires Wellformed(req)
  {
    if req.term < r.currentTerm then (r, AppendReply(r.currentTerm, false))
    else
      var r1 := if req.term > r.currentTerm then r.(currentTerm := req.term, votedFor := LeaderState.NOBODY) else r;
      if !Node.PrevMatches(r.logs, req.prevLogIndex, req.prevLogTerm) then (r1, AppendReply(req.term, false))
      else (r1.(logs := if req.entries == [] then r.logs else Replaced(r.logs, req)), AppendReply(req.term, true))
  }

  /** Then the commit index, and the apply loop; its error is only logged. */
  function Receive(json: JsonDecoder, r: Raft, st: Store, req: AppendRequest): (Raft, Store, AppendReply)
    requires Wellformed(req) && r.lastApplied >= 0
  {
    var (r1, reply) := Update(r, req);
    if !reply.success || req.leaderCommit <= r1.commitIndex then (r1, st, reply)
    else
      var (r2, st2, _) := ApplyPending(json, r1.(commitIndex := Min(req.leaderCommit, LastIndex(r1.logs))), st);
      (r2, st2, reply)
  }

  method AppendEntries(json: JsonDecoder, raft: RaftState, kv: StateMachine,
        req: AppendRequest) returns (reply: AppendReply)
    requires Wellformed(req) && raft.lastApplied >= 0
    modifies raft, kv
    ensures (raft.View(), kv.View(), reply) == Receive(json, old(raft.View()), old(kv.View()), req)
  {
    reply := AcceptEntries(raft, req);
    if !reply.success {
      return;
    }
    if req.leaderCommit > raft.commitIndex {
      var last := raft.GetLastLogIndex();
      raft.commitIndex := Min(req.leaderCommit, last);
      var _ := raft.ApplyCommittedLogs(json, kv);
    }
  }

  /** The checks, and the new log where they pass. */
  method AcceptEntries(raft: RaftState, req: AppendRequest) returns (reply: AppendReply)
    requires Wellformed(req)
    modifies raft
    ensures (raft.View(), reply) == Update(old(raft.View()), req)
  {
    var currentTerm := raft.currentTerm;
    reply := AppendReply(currentTerm, false);
    if req.term < currentTerm {
      return;
    }
    if req.term > currentTerm {
      raft.currentTerm := req.term;
      raft.votedFor := LeaderState.NOBODY;
      reply := reply.(term := req.term);
    }
    var logs := raft.logs;
    if req.prevLogIndex >= 0 {
      var pos := req.prevLogIndex - 1;
      if req.prevLogIndex > 0 && pos >= |logs| {
        return;
      }
      if req.prevLogIndex > 0 && logs[pos].term != req.prevLogTerm {
        return;
      }
    }
    reply := reply.(success := true);
    if |req.entries| > 0 {
      var added := BuildEntries(req);
      if req.prevLogIndex < |logs| {
        logs := logs[..req.prevLogIndex];
      }
      logs := logs + added;
      assert logs == Replaced(old(raft.logs), req);
      raft.logs := logs;
    }
  }

  method BuildEntries(req: AppendRequest) returns (added: seq<LogEntry>)
    ensures added == RawEntries(req)
  {
    added := [];
    for i := 0 to |req.entries|
      invariant added == RawEntries(req)[..i]
    {
      added := added + [LogEntry(req.term, req.prevLogIndex + 1 + i, req.entries[i])];
    }
  }

  // ---------- What it guarantees ----------

  /** A request is taken, with entries or without, exactly if it is not stale and the log
      holds an entry of the previous term at the previous index, or that index is not
      positive; the reply tells the larger of the two terms. */
  lemma AcceptedWhen(r: Raft, req: AppendRequest)
    requires Wellformed(req)
    ensures Update(r, req).1.success <==>
            && req.term >= r.currentTerm && req.prevLogIndex <= |r.logs|
            && (req.prevLogIndex <= 0 || r.logs[req.prevLogIndex - 1].term == req.prevLogTerm)
    ensures Update(r, req).1.term == if req.term > r.currentTerm then req.term else r.currentTerm
  {
  }

  /** Taken or not, a higher term is adopted and clears the vote, but the master flag stays;
      a request that is not taken leaves the log, and none moves the indices. */
  lemma UpdateLeaves(r: Raft, req: AppendRequest)
    requires Wellformed(req)
    ensures var (r', reply) := Update(r, req);
            && r'.currentTerm == reply.term
            && r'.votedFor == (if req.term > r.currentTerm then -1 else r.votedFor)
            && (!reply.success || req.entries == [] ==> r'.logs == r.logs)
            && r'.isMaster == r.isMaster && r'.peers == r.peers
            && r'.commitIndex == r.commitIndex && r'.lastApplied == r.lastApplied
            && r'.nextIndex == r.nextIndex && r'.matchIndex == r.matchIndex
  {
  }

  lemma {:induction false} ReceiveIs(json: JsonDecoder, r: Raft, st: Store, req: AppendRequest, r1: Raft, reply: AppendReply)
    requires Wellformed(req) && r.lastApplied >= 0 && Update(r, req) == (r1, reply) && r1.lastApplied == r.lastApplied
    ensures Receive(json, r, st, req) ==
            if !reply.success || req.leaderCommit <= r1.commitIndex then (r1, st, reply)
            else
              var commit := Min(req.leaderCommit, LastIndex(r1.logs));
              var a := ApplyAll(json, Pending(r1.logs, r.lastApplied, commit), r.lastApplied, st);
              (r1.(commitIndex := commit, lastApplied := a.lastApplied), a.store, reply)
  {
  }

  /** Then the commit index follows the leader's upwards, not past the last entry's index,
      heartbeats included, and what is pending by then is applied; a request that is not
      taken or does not raise it applies nothing. */
  lemma {:induction false} CommitFollows(json: JsonDecoder, r: Raft, st: Store, req: AppendRequest)
    requires Wellformed(req) && r.lastApplied >= 0
    ensures var (r', st', reply) := Receive(json, r, st, req);
            var r1 := Update(r, req).0;
            var end := if r1.logs == [] then 0 else r1.logs[|r1.logs| - 1].index;
            && reply == Update(r, req).1
            && r' == r1.(commitIndex := r'.commitIndex, lastApplied := r'.lastApplied)
            && (if reply.success && req.leaderCommit > r.commitIndex then
                  && r'.commitIndex == (if req.leaderCommit <= end then req.leaderCommit else end)
                  && (var a := ApplyAll(json, Pending(r1.logs, r.lastApplied, r'.commitIndex), r.lastApplied, st);
                      r'.lastApplied == a.lastApplied && st' == a.store)
                else r'.commitIndex == r.commitIndex && r'.lastApplied == r.lastApplied && st' == st)
  {
    UpdateLeaves(r, req);
    ReceiveIs(json, r, st, req, Update(r, req).0, Update(r, req).1);
  }

  /** Unlike the other handler, success always means stored: every entry is in its
      place, what precedes them is untouched, and nothing follows them. */
  lemma SuccessStores(r: Raft, req: AppendRequest)
    requires req.prevLogIndex >= 0 && req.entries != [] && Update(r, req).1.success
    ensures req.prevLogIndex <= |r.logs|
    ensures var logs := Update(r, req).0.logs;
            && |logs| == req.prevLogIndex + |req.entries|
            && (Indexed(r.logs) ==> Indexed(logs))
            && logs[..req.prevLogIndex] == r.logs[..req.prevLogIndex]
            && (forall i :: 0 <= i < |req.entries| ==> FollowerLog.Placed(logs, req, i))
            && Commands(logs[req.prevLogIndex..]) == req.entries
  {
  }

  // ---------- The two handlers side by side ----------

  /** Both start from the same log and term. */
  ghost predicate SameStart(n: Node.Node, r: Raft) {
    n.log == r.logs && n.currentTerm == r.currentTerm
  }

  /** They give the same verdict on a request if and only if it carries entries, is
      stale, or passes the check that the conflict-scanning handler skips for heartbeats. */
  lemma VerdictsAgreeIff(decode: Node.EntryDecoder, n: Node.Node, r: Raft, req: AppendRequest)
    requires Wellformed(req) && SameStart(n, r)
    ensures Node.Append(decode, n, req).1.success == Update(r, req).1.success <==>
            || req.entries != [] || req.term < n.currentTerm
            || (req.prevLogIndex <= |n.log| &&
                (req.prevLogIndex <= 0 || n.log[req.prevLogIndex - 1].term == req.prevLogTerm))
  {
  }

  /** Agreement on (Index, Term) of the first `count` entries. */
  ghost predicate AgreeUpTo(a: seq<LogEntry>, b: seq<LogEntry>, count: nat) {
    && count <= |a| && count <= |b|
    && forall i :: 0 <= i < count ==> a[i].index == b[i].index && a[i].term == b[i].term
  }

  lemma AgreeMeansPlaced(a: seq<LogEntry>, b: seq<LogEntry>, req: AppendRequest)
    requires req.prevLogIndex >= 0 && |b| == req.prevLogIndex + |req.entries|
    requires forall i :: 0 <= i < |req.entries| ==> FollowerLog.Placed(b, req, i)
    requires req.prevLogIndex <= |a| && a[..req.prevLogIndex] == b[..req.prevLogIndex]
    ensures AgreeUpTo(a, b, |b|) <==> forall i :: 0 <= i < |req.entries| ==> FollowerLog.Placed(a, req, i)
  {
    var p := req.prevLogIndex;
    assert forall i :: 0 <= i < p ==> a[i] == a[..p][i] && b[i] == b[..p][i];
    if AgreeUpTo(a, b, |b|) {
      forall i | 0 <= i < |req.entries| ensures FollowerLog.Placed(a, req, i) {
        assert FollowerLog.Placed(b, req, i) && b[p + i].term == a[p + i].term;
      }
    } else if forall i :: 0 <= i < |req.entries| ==> FollowerLog.Placed(a, req, i) {
      assert FollowerLog.Placed(a, req, |req.entries| - 1) || req.entries == [];
      forall j | 0 <= j < |b| ensures j < |a| && a[j].index == b[j].index && a[j].term == b[j].term {
        if j >= p {
          assert FollowerLog.Placed(a, req, j - p) && FollowerLog.Placed(b, req, j - p);
        }
      }
    }
  }

  /** What an accepted request makes of the reference log, against another log with the same beginning. */
  lemma AgainstReference(r: Raft, req: AppendRequest, a: seq<LogEntry>)
    requires req.prevLogIndex >= 0 && req.entries != [] && Update(r, req).1.success
    requires req.prevLogIndex <= |r.logs| && req.prevLogIndex <= |a| &&
        a[..req.prevLogIndex] == r.logs[..req.prevLogIndex]
    ensures AgreeUpTo(a, Update(r, req).0.logs, req.prevLogIndex + |req.entries|) <==>
            forall i :: 0 <= i < |req.entries| ==> FollowerLog.Placed(a, req, i)
  {
    SuccessStores(r, req);
    AgreeMeansPlaced(a, Update(r, req).0.logs, req);
  }

  /** From the same log and term, an accepted request leaves the two logs agreeing on
      (index, term) up to its last entry if and only if the append offset fits and the
      surviving entries it overlaps were numbered by position. */
  lemma HandlersAgreeIff(decode: Node.EntryDecoder, n: Node.Node, r: Raft, req: AppendRequest)
    requires Wellformed(req) && SameStart(n, r) && FollowerLog.Accepts(decode, n, req)
    ensures Update(r, req).1.success && 0 <= req.prevLogIndex <= |n.log|
    ensures AgreeUpTo(Node.Append(decode, n, req).0.log, Update(r, req).0.logs, req.prevLogIndex + |req.entries|) <==>
            && FollowerLog.OffsetFits(n.log, req)
            && forall i :: 0 <= i < |req.entries| ==> FollowerLog.NumberedAt(n.log, req, i)
  {
    FollowerLog.AcceptedWhen(decode, n, req);
    FollowerLog.PrefixUntouched(decode, n, req);
    FollowerLog.PlacedIff(decode, n, req);
    AgainstReference(r, req, Node.Append(decode, n, req).0.log);
  }

  /** The price of replacing: a late shorter request from the start of the log, of the
      same term, cuts the reference log back to its own length and leaves the other alone. */
  lemma LateRequestCuts(decode: Node.EntryDecoder, n: Node.Node, r: Raft, req: AppendRequest)
    requires SameStart(n, r) && req.prevLogIndex == 0 && req.term == n.currentTerm
    requires 0 < |req.entries| < |n.log| && forall i :: 0 <= i < |req.entries| ==> n.log[i].term == req.term
    ensures Node.Append(decode, n, req).0.log == n.log
    ensures |Update(r, req).0.logs| == |req.entries| < |r.logs|
  {
  }
}
