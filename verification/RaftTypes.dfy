/** Records shared by every part of the server: log entries, the AppendEntries
    messages, and a few facts about logs.  Addresses of peers are strings; node
    identifiers are integers. */
module RaftTypes {

  datatype Option<+T> = None | Some(value: T)

  datatype Result<+T, +E> = Ok(value: T) | Err(error: E)

  datatype LogEntry = LogEntry(term: int, index: int, command: string)

  datatype AppendRequest = AppendRequest(
    term: int,
    prevLogIndex: int,
    prevLogTerm: int,
    entries: seq<string>,
    leaderCommit: int)

  /** Requests with entries name a position of the log; both handlers index the log by it. */
  predicate Wellformed(req: AppendRequest) {
    req.prevLogIndex >= 0 || req.entries == []
  }

  datatype AppendReply = AppendReply(term: int, success: bool)

  /** What a vote request says about the candidate's log: the last entry's term and index. */
  datatype LastLog = LastLog(term: int, index: int)

  function LastOf(log: seq<LogEntry>): LastLog {
    if log == [] then LastLog(0, 0) else LastLog(log[|log| - 1].term, log[|log| - 1].index)
  }

  function LastIndex(log: seq<LogEntry>): int {
    LastOf(log).index
  }

  /** The lexicographic order of section 5.4.1 of the Raft paper. */
  predicate UpToDate(candidate: LastLog, voter: LastLog) {
    candidate.term > voter.term || (candidate.term == voter.term && candidate.index >= voter.index)
  }

  /** Every entry's index is its position plus one. */
  ghost predicate Indexed(log: seq<LogEntry>) {
    forall i :: 0 <= i < |log| ==> log[i].index == i + 1
  }

  function Commands(log: seq<LogEntry>): (r: seq<string>)
    ensures |r| == |log|
    ensures forall i :: 0 <= i < |log| ==> r[i] == log[i].command
  {
    seq(|log|, i requires 0 <= i < |log| => log[i].command)
  }

  function Min(a: int, b: int): int { if a < b then a else b }

  function Max(a: int, b: int): int { if a > b then a else b }
}
