/** RaftState: the leader's log, its commit and apply indices, and the commit rule.
    `Raft` is the value of the object's fields. */
module LeaderState {
  import opened RaftTypes
  import opened CommandCodec
  import opened KvStore

  const NOBODY := -1

  datatype Raft = Raft(
    currentTerm: int,
    votedFor: int,
    logs: seq<LogEntry>,
    commitIndex: int,
    lastApplied: int,
    nextIndex: map<string, int>,
    matchIndex: map<string, int>,
    peers: seq<string>,
    isMaster: bool)

  // ---------- Appending ----------

  /** The first position holding an entry of this index, |logs| when none does. */
  function FirstAt(logs: seq<LogEntry>, index: int): (i: nat)
    ensures i <= |logs|
    ensures forall j :: 0 <= j < i ==> logs[j].index != index
    ensures i < |logs| ==> logs[i].index == index
  {
    if logs == [] then 0
    else if logs[0].index == index then 0
    else 1 + FirstAt(logs[1..], index)
  }

  /** AppendLog replaces an index below 1 before storing the entry. */
  function WithIndex(logs: seq<LogEntry>, e: LogEntry): LogEntry {
    if e.index >= 1 then e else e.(index := if logs == [] then 1 else LastIndex(logs) + 1)
  }

  function AppendLog(logs: seq<LogEntry>, e: LogEntry): seq<LogEntry> {
    var i := FirstAt(logs, e.index);
    if i == |logs| then logs + [e]
    else if logs[i].term != e.term then logs[..i] + [e]
    else logs
  }

  /** On a log whose indices are positions plus one, an entry numbered after the
      last one is appended and everything before it stays. */
  lemma AppendsAtEnd(logs: seq<LogEntry>, e: LogEntry)
    requires Indexed(logs) && e.index == LastIndex(logs) + 1
    ensures WithIndex(logs, e) == e && AppendLog(logs, e) == logs + [e] && Indexed(logs + [e])
  {
  }

  /** An index below 1 is replaced by the one after the last entry's, 1 on an empty log. */
  lemma WithIndexIs(logs: seq<LogEntry>, e: LogEntry)
    ensures var e' := WithIndex(logs, e);
            && e'.term == e.term && e'.command == e.command
            && e'.index == (if e.index >= 1 then e.index
                            else if logs == [] then 1 else logs[|logs| - 1].index + 1)
  {
  }

  /** An entry of an index the log does not hold goes to the end; one that the log holds with
      the same term changes nothing; one that it holds with another term replaces that
      entry, the first of its index, and everything after it. */
  lemma AppendLogIs(logs: seq<LogEntry>, e: LogEntry)
    ensures var logs' := AppendLog(logs, e);
            if forall i :: 0 <= i < |logs| ==> logs[i].index != e.index then logs' == logs + [e]
            else
              exists i :: 0 <= i < |logs| && logs[i].index == e.index &&
                (forall j :: 0 <= j < i ==> logs[j].index != e.index) &&
                (if logs[i].term == e.term then logs' == logs else logs' == logs[..i] + [e])
  {
    var i := FirstAt(logs, e.index);
    assert i < |logs| ==> logs[i].index == e.index;
  }

  // ---------- The commit rule ----------

  /** The peers recorded as matching exactly up to this index. */
  function ExactMatches(matchIndex: map<string, int>, index: int): set<string> {
    set p | p in matchIndex && matchIndex[p] == index
  }

  function Majority(peers: seq<string>): nat { (|peers| + 1) / 2 + 1 }

  /** What the loop of UpdateCommitIndex asks of a candidate index: note the term is
      read at slice position N, which on an indexed log holds entry N+1. */
  predicate Committable(r: Raft, n: int) {
    0 < n < |r.logs| && |ExactMatches(r.matchIndex, n)| >= Majority(r.peers) && r.logs[n].term == r.currentTerm
  }

  /** In plain terms: an index short of the last position is committable when more than half
      of the cluster is recorded at exactly that index, the leader not counted, and the entry
      after it is of the current term. */
  lemma CommittableIff(r: Raft, n: int)
    ensures Committable(r, n) <==>
            && 0 < n < |r.logs|
            && 2 * |(set p | p in r.matchIndex && r.matchIndex[p] == n)| > |r.peers| + 1
            && r.logs[n].term == r.currentTerm
  {
    assert ExactMatches(r.matchIndex, n) == (set p | p in r.matchIndex && r.matchIndex[p] == n);
  }

  // ---------- Applying ----------

  /** The entries ApplyCommittedLogs collects: slice positions, not log indices. */
  function Pending(logs: seq<LogEntry>, lastApplied: int, commit: int): seq<LogEntry>
    requires lastApplied >= 0
  {
    var end := Min(commit + 1, |logs|);
    if lastApplied + 1 < end then logs[lastApplied + 1..end] else []
  }

  /** An entry is collected exactly if its slice position is past lastApplied and not past the
      commit index: position p holds entry p+1, so the entry lastApplied+1 itself is not. */
  lemma PendingIs(logs: seq<LogEntry>, lastApplied: nat, commit: int)
    ensures var entries := Pending(logs, lastApplied, commit);
            forall p {:trigger logs[p]} :: 0 <= p < |logs| ==>
              (lastApplied < p <= commit ==>
                p - lastApplied - 1 < |entries| && entries[p - lastApplied - 1] == logs[p])
    ensures |Pending(logs, lastApplied, commit)| ==
            if commit <= lastApplied || |logs| <= lastApplied + 1 then 0
            else if commit < |logs| then commit - lastApplied else |logs| - lastApplied - 1
  {
  }

  function ApplyAll(json: JsonDecoder, entries: seq<LogEntry>, last: int, st: Store): Applied {
    if entries == [] then Applied(last, st, None)
    else
      var (st', r) := ApplyEntry(json, st, entries[0]);
      if Halts(r) then Applied(last, st, Some(r.error))
      else ApplyAll(json, entries[1..], entries[0].index, st')
  }

  function ApplyPending(json: JsonDecoder, r: Raft, st: Store): (Raft, Store, Option<string>)
    requires r.lastApplied >= 0
  {
    var a := ApplyAll(json, Pending(r.logs, r.lastApplied, r.commitIndex), r.lastApplied, st);
    (r.(lastApplied := a.lastApplied), a.store, a.error)
  }

  lemma {:induction false} ApplyNext(json: JsonDecoder, entries: seq<LogEntry>, i: nat, last: int, st: Store)
    requires i < |entries|
    ensures var (st', r) := ApplyEntry(json, st, entries[i]);
            ApplyAll(json, entries[i..], last, st) ==
            if Halts(r) then Applied(last, st, Some(r.error))
            else ApplyAll(json, entries[i + 1..], entries[i].index, st')
  {
  }

  /** Exact matches outside the peers still to be counted. */
  ghost function Counted(matchIndex: map<string, int>, left: set<string>, n: int): nat {
    |ExactMatches(matchIndex, n) - left|
  }

  lemma MatchSeen(matchIndex: map<string, int>, left: set<string>, p: string, n: int)
    requires p in left && p in matchIndex
    ensures Counted(matchIndex, left - {p}, n) == Counted(matchIndex, left, n) + if n == matchIndex[p] then 1 else 0
  {
    var exact := ExactMatches(matchIndex, n);
    if n == matchIndex[p] {
      assert exact - (left - {p}) == (exact - left) + {p};
    } else {
      assert exact - (left - {p}) == exact - left;
    }
  }

  /** The counter in a Go map: a missing key reads as zero. */
  function At(counts: map<int, int>, n: int): int {
    if n in counts then counts[n] else 0
  }

  /** One turn of the counting loop. */
  function Bump(counts: map<int, int>, m: int): map<int, int> {
    if m > 0 then counts[m := At(counts, m) + 1] else counts
  }

  ghost predicate CountsAre(matchIndex: map<string, int>, left: set<string>, counts: map<int, int>) {
    forall n :: n > 0 ==> At(counts, n) == Counted(matchIndex, left, n)
  }

  lemma CountStarts(matchIndex: map<string, int>)
    ensures CountsAre(matchIndex, matchIndex.Keys, map[0 := 1])
  {
  }

  lemma CountNext(matchIndex: map<string, int>, left: set<string>, counts: map<int, int>, p: string)
    requires p in left && p in matchIndex && CountsAre(matchIndex, left, counts)
    ensures CountsAre(matchIndex, left - {p}, Bump(counts, matchIndex[p]))
  {
    forall n { MatchSeen(matchIndex, left, p, n); }
  }

  lemma CountEnds(matchIndex: map<string, int>, counts: map<int, int>, n: int)
    requires CountsAre(matchIndex, {}, counts) && n > 0
    ensures At(counts, n) == |ExactMatches(matchIndex, n)|
  {
  }

  // ---------- The object ----------

  class RaftState {
    var currentTerm: int
    var votedFor: int
    var logs: seq<LogEntry>
    var commitIndex: int
    var lastApplied: int
    var nextIndex: map<string, int>
    var matchIndex: map<string, int>
    var peers: seq<string>
    var isMaster: bool

    constructor (peers: seq<string>, isMaster: bool)
      ensures View() == Raft(0, NOBODY, [], 0, 0, map[], map[], peers, isMaster)
    {
      currentTerm, votedFor := 0, NOBODY;
      logs, commitIndex, lastApplied := [], 0, 0;
      nextIndex, matchIndex := map[], map[];
      this.peers, this.isMaster := peers, isMaster;
    }

    function View(): Raft
      reads this
    {
      Raft(currentTerm, votedFor, logs, commitIndex, lastApplied, nextIndex, matchIndex, peers, isMaster)
    }

    method GetLastLogIndex() returns (index: int)
      ensures index == LastIndex(logs)
    {
      index := if |logs| == 0 then 0 else logs[|logs| - 1].index;
    }

    /** Returns the entry as stored: a bad index is corrected in the caller's entry too. */
    method Append(entry: LogEntry) returns (stored: LogEntry)
      modifies this
      ensures stored == WithIndex(old(logs), entry)
      ensures View() == old(View()).(logs := AppendLog(old(logs), stored))
    {
      stored := entry;
      if stored.index < 1 {
        stored := stored.(index := 1);
        if |logs| > 0 {
          stored := stored.(index := logs[|logs| - 1].index + 1);
        }
      }
      var i := 0;
      while i < |logs|
        invariant 0 <= i <= |logs|
        invariant View() == old(View())
        invariant forall j :: 0 <= j < i ==> logs[j].index != stored.index
      {
        if logs[i].index == stored.index {
          FirstAtIs(logs, stored.index, i);
          if logs[i].term != stored.term {
            logs := logs[..i];
            break;
          } else {
            return;
          }
        }
        i := i + 1;
      }
      logs := logs + [stored];
    }

    method UpdateCommitIndex() returns (commit: int)
      requires commitIndex >= 0
      modifies this
      ensures commit == commitIndex
      ensures View() == old(View()).(commitIndex := commit)
      ensures !isMaster ==> commit == old(commitIndex)
      ensures isMaster ==>
                && (commit == old(commitIndex) || (commit > old(commitIndex) && Committable(old(View()), commit)))
                && (forall n :: commit < n ==> !Committable(old(View()), n))
    {
      if !isMaster {
        return commitIndex;
      }
      var logLength := |logs|;
      if logLength == 0 {
        return commitIndex;
      }
      var counts := CountMatches(matchIndex);
      var majority := (|peers| + 1) / 2 + 1;
      var newCommit := commitIndex;
      var idx := commitIndex + 1;
      while idx < logLength
        invariant idx > commitIndex
        invariant newCommit == commitIndex || (commitIndex < newCommit < idx && Committable(View(), newCommit))
        invariant forall n :: newCommit < n < idx ==> !Committable(View(), n)
      {
        if At(counts, idx) >= majority && logs[idx].term == currentTerm {
          newCommit := idx;
        }
        idx := idx + 1;
      }
      if newCommit > commitIndex {
        commitIndex := newCommit;
      }
      commit := commitIndex;
    }

    /** The counting loop over MatchIndex, in any order. */
    static method CountMatches(matchIndex: map<string, int>) returns (counts: map<int, int>)
      ensures forall n :: n > 0 ==> At(counts, n) == |ExactMatches(matchIndex, n)|
    {
      counts := map[0 := 1];
      var left := matchIndex.Keys;
      CountStarts(matchIndex);
      while left != {}
        invariant left <= matchIndex.Keys && CountsAre(matchIndex, left, counts)
        decreases left
      {
        var p :| p in left;
        var m := matchIndex[p];
        CountNext(matchIndex, left, counts, p);
        left := left - {p};
        if m > 0 {
          counts := counts[m := At(counts, m) + 1];
        }
      }
      forall n | n > 0 ensures At(counts, n) == |ExactMatches(matchIndex, n)| {
        CountEnds(matchIndex, counts, n);
      }
    }

    method ApplyCommittedLogs(json: JsonDecoder, kv: StateMachine) returns (error: Option<string>)
      requires lastApplied >= 0
      modifies this`lastApplied, kv
      ensures (View(), kv.View(), error) == ApplyPending(json, old(View()), old(kv.View()))
    {
      error := None;
      if lastApplied >= commitIndex {
        return;
      }
      var entries := CollectPending();
      if |entries| == 0 {
        return;
      }
      var i := 0;
      while i < |entries|
        invariant 0 <= i <= |entries|
        invariant ApplyAll(json, entries, old(lastApplied), old(kv.View()))
               == ApplyAll(json, entries[i..], lastApplied, kv.View())
      {
        ApplyNext(json, entries, i, lastApplied, kv.View());
        var result := kv.ApplyLog(json, entries[i]);
        if Halts(result) {
          return Some(result.error);
        }
        lastApplied := entries[i].index;
        i := i + 1;
      }
    }

    method CollectPending() returns (entries: seq<LogEntry>)
      requires lastApplied >= 0
      ensures entries == Pending(logs, lastApplied, commitIndex)
    {
      entries := [];
      var i := lastApplied + 1;
      while i <= commitIndex && i < |logs|
        invariant i > lastApplied
        invariant i == lastApplied + 1 || i <= Min(commitIndex + 1, |logs|)
        invariant entries == if lastApplied + 1 < i then logs[lastApplied + 1..i] else []
      {
        entries := entries + [logs[i]];
        i := i + 1;
      }
    }
  }

  lemma {:induction false} FirstAtIs(logs: seq<LogEntry>, index: int, i: nat)
    requires i < |logs| && logs[i].index == index
    requires forall j :: 0 <= j < i ==> logs[j].index != index
    ensures FirstAt(logs, index) == i
  {
  }
}
