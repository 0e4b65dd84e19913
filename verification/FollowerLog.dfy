/** What a follower's AppendEntries and apply loop guarantee, and where they do not
    do what their success reply says. */
module FollowerLog {
  import opened RaftTypes
  import opened CommandCodec
  import opened KvStore
  import opened RaftNode

  // ---------- AppendEntries ----------

  ghost predicate Accepts(decode: EntryDecoder, n: Node, req: AppendRequest)
    requires Wellformed(req)
  {
    req.entries != [] && Append(decode, n, req).1.success
  }

  /** Section 5.3: a request with entries is taken exactly if it is not stale and the log
      holds an entry of the previous term at the previous index, or that index is 0; one
      without entries exactly if it is not stale.  The reply tells the term from before. */
  lemma AcceptedWhen(decode: EntryDecoder, n: Node, req: AppendRequest)
    requires Wellformed(req)
    ensures Append(decode, n, req).1.success <==>
            && req.term >= n.currentTerm
            && (req.entries == [] ||
                (&& req.prevLogIndex <= |n.log|
                 && (req.prevLogIndex == 0 || n.log[req.prevLogIndex - 1].term == req.prevLogTerm)))
    ensures Append(decode, n, req).1.term == n.currentTerm
    ensures !Append(decode, n, req).1.success ==> Append(decode, n, req).0.log == n.log
  {
  }

  /** The stored log of an accepted request. */
  lemma AcceptedLog(decode: EntryDecoder, n: Node, req: AppendRequest)
    requires Wellformed(req) && Accepts(decode, n, req)
    ensures req.term >= n.currentTerm && PrevMatches(n.log, req.prevLogIndex, req.prevLogTerm)
    ensures Append(decode, n, req).0.log == Merge(n.log, req.term, req.prevLogIndex, NewEntries(decode, req))
  {
  }

  /** Positions before the previous index are untouched by every request. */
  lemma PrefixUntouched(decode: EntryDecoder, n: Node, req: AppendRequest)
    requires Wellformed(req) && Append(decode, n, req).1.success
    ensures var log := Append(decode, n, req).0.log;
            var p := Max(0, Min(req.prevLogIndex, |n.log|));
            p <= |log| && log[..p] == n.log[..p]
  {
  }

  /** A request carrying the log from its start leaves the longest stored prefix
      whose terms it agrees with, followed by its remaining entries, and the log
      stays numbered by position. */
  lemma FullRequest(decode: EntryDecoder, n: Node, req: AppendRequest)
    requires req.prevLogIndex == 0 && Accepts(decode, n, req)
    ensures var log := Append(decode, n, req).0.log;
            var added := NewEntries(decode, req);
            var k := Kept(n.log, req.term, 0, |added|);
            && log == n.log[..k] + (if k < |added| then added[k..] else [])
            && (forall i :: 0 <= i < |added| ==> i < |log| && log[i].term == req.term)
            && (Indexed(n.log) ==> Indexed(log))
  {
  }

  /** After a merge nothing conflicts and nothing is left to append. */
  lemma MergedTwice(log: seq<LogEntry>, term: int, prev: nat, added: seq<LogEntry>)
    requires prev <= |log| && forall i :: 0 <= i < |added| ==> added[i].term == term
    ensures var log' := Merge(log, term, prev, added);
            && prev <= |log'| && log'[..prev] == log[..prev]
            && Merge(log', term, prev, added) == log'
  {
  }

  /** Delivering any request again changes nothing and gives the same verdict. */
  lemma RepeatIsIdle(decode: EntryDecoder, n: Node, req: AppendRequest)
    requires Wellformed(req)
    ensures var (n1, r1) := Append(decode, n, req);
            var (n2, r2) := Append(decode, n1, req);
            n2 == n1 && r2.success == r1.success
  {
    if Accepts(decode, n, req) {
      AcceptedLog(decode, n, req);
      var log := n.log;
      MergedTwice(log, req.term, req.prevLogIndex, NewEntries(decode, req));
      assert req.prevLogIndex > 0 ==> log[..req.prevLogIndex][req.prevLogIndex - 1] == log[req.prevLogIndex - 1];
    }
  }

  /** Position prev+i of the log is numbered and termed as the i-th shipped entry. */
  predicate Placed(log: seq<LogEntry>, req: AppendRequest, i: nat) {
    var pos := req.prevLogIndex + i;
    0 <= pos < |log| && log[pos].index == pos + 1 && log[pos].term == req.term
  }

  /** Position prev+i of the log holds the i-th shipped entry, command included. */
  predicate Holds(decode: EntryDecoder, log: seq<LogEntry>, req: AppendRequest, i: nat)
    requires i < |req.entries|
  {
    Placed(log, req, i) && log[req.prevLogIndex + i].command == Stored(decode, req.entries[i])
  }

  /** How much of the log survives the request. */
  function Survives(log: seq<LogEntry>, req: AppendRequest): nat
    requires 0 <= req.prevLogIndex <= |log|
  {
    Kept(log, req.term, req.prevLogIndex, req.prevLogIndex + |req.entries|)
  }

  /** The append offset is right, or there is nothing to append. */
  predicate OffsetFits(log: seq<LogEntry>, req: AppendRequest)
    requires 0 <= req.prevLogIndex <= |log|
  {
    req.prevLogIndex == 0 || Survives(log, req) >= req.prevLogIndex + |req.entries|
  }

  /** If the log survives at the i-th shipped position, it is numbered there by position. */
  predicate NumberedAt(log: seq<LogEntry>, req: AppendRequest, i: nat)
    requires 0 <= req.prevLogIndex <= |log|
  {
    var pos := req.prevLogIndex + i;
    pos < Survives(log, req) ==> log[pos].index == pos + 1
  }

  /** And there it already holds the shipped command. */
  predicate RightAt(decode: EntryDecoder, log: seq<LogEntry>, req: AppendRequest, i: nat)
    requires 0 <= req.prevLogIndex <= |log| && i < |req.entries|
  {
    var pos := req.prevLogIndex + i;
    NumberedAt(log, req, i) && (pos < Survives(log, req) ==> log[pos].command == Stored(decode, req.entries[i]))
  }

  /** Where the offset fits, an accepted request leaves the surviving entries where
      they overlap it and its own entries after them. */
  lemma FittingMerge(decode: EntryDecoder, log: seq<LogEntry>, req: AppendRequest)
    requires 0 <= req.prevLogIndex <= |log| && OffsetFits(log, req)
    ensures var log' := Merge(log, req.term, req.prevLogIndex, NewEntries(decode, req));
            && |log'| >= req.prevLogIndex + |req.entries|
            && forall pos :: req.prevLogIndex <= pos < req.prevLogIndex + |req.entries| ==>
                 log'[pos] == if pos < Survives(log, req) then log[pos]
                              else NewEntries(decode, req)[pos - req.prevLogIndex]
  {
  }

  /** Where it does not, the position at which the log stops surviving gets either
      nothing or an entry numbered `prevLogIndex` too high. */
  lemma MisfitMerge(decode: EntryDecoder, log: seq<LogEntry>, req: AppendRequest)
    requires 0 <= req.prevLogIndex <= |log| && !OffsetFits(log, req)
    ensures !Placed(Merge(log, req.term, req.prevLogIndex, NewEntries(decode, req)), req,
        Survives(log, req) - req.prevLogIndex)
  {
  }

  /** An accepted request leaves every entry it carries in its place, command and
      all, if and only if it starts at the beginning of the log or nothing of it had
      to be appended, and the surviving entries it overlaps were the right ones. */
  lemma StoredIff(decode: EntryDecoder, n: Node, req: AppendRequest)
    requires Wellformed(req) && Accepts(decode, n, req)
    ensures 0 <= req.prevLogIndex <= |n.log|
    ensures (forall i :: 0 <= i < |req.entries| ==> Holds(decode, Append(decode, n, req).0.log, req, i)) <==>
            OffsetFits(n.log, req) && forall i :: 0 <= i < |req.entries| ==> RightAt(decode, n.log, req, i)
  {
    AcceptedLog(decode, n, req);
    var log' := Append(decode, n, req).0.log;
    if OffsetFits(n.log, req) {
      forall i | 0 <= i < |req.entries| ensures Holds(decode, log', req, i) <==> RightAt(decode, n.log, req, i) {
        FittingHolds(decode, n.log, req, i);
      }
    } else {
      MisfitMerge(decode, n.log, req);
      assert !Holds(decode, log', req, Survives(n.log, req) - req.prevLogIndex);
    }
  }

  lemma FittingHolds(decode: EntryDecoder, log: seq<LogEntry>, req: AppendRequest, i: nat)
    requires 0 <= req.prevLogIndex <= |log| && OffsetFits(log, req) && i < |req.entries|
    ensures var log' := Merge(log, req.term, req.prevLogIndex, NewEntries(decode, req));
            && (Holds(decode, log', req, i) <==> RightAt(decode, log, req, i))
            && (Placed(log', req, i) <==> NumberedAt(log, req, i))
  {
    FittingMerge(decode, log, req);
  }

  /** Where the offset does not fit, the log ends before the last shipped entry's place. */
  lemma MisfitEnds(decode: EntryDecoder, log: seq<LogEntry>, req: AppendRequest)
    requires 0 <= req.prevLogIndex <= |log| && !OffsetFits(log, req)
    ensures |Merge(log, req.term, req.prevLogIndex, NewEntries(decode, req))| < req.prevLogIndex + |req.entries|
  {
  }

  /** And it leaves the last of them in its place under the same condition on that one alone. */
  lemma NewestStoredIff(decode: EntryDecoder, n: Node, req: AppendRequest)
    requires Wellformed(req) && Accepts(decode, n, req)
    ensures 0 <= req.prevLogIndex <= |n.log|
    ensures Holds(decode, Append(decode, n, req).0.log, req, |req.entries| - 1) <==>
            OffsetFits(n.log, req) && RightAt(decode, n.log, req, |req.entries| - 1)
  {
    AcceptedLog(decode, n, req);
    if OffsetFits(n.log, req) {
      FittingHolds(decode, n.log, req, |req.entries| - 1);
    } else {
      MisfitEnds(decode, n.log, req);
    }
  }

  /** The same for numbers and terms alone. */
  lemma PlacedIff(decode: EntryDecoder, n: Node, req: AppendRequest)
    requires Wellformed(req) && Accepts(decode, n, req)
    ensures 0 <= req.prevLogIndex <= |n.log|
    ensures (forall i :: 0 <= i < |req.entries| ==> Placed(Append(decode, n, req).0.log, req, i)) <==>
            OffsetFits(n.log, req) && forall i :: 0 <= i < |req.entries| ==> NumberedAt(n.log, req, i)
  {
    AcceptedLog(decode, n, req);
    var log' := Append(decode, n, req).0.log;
    if OffsetFits(n.log, req) {
      forall i | 0 <= i < |req.entries| ensures Placed(log', req, i) <==> NumberedAt(n.log, req, i) {
        FittingHolds(decode, n.log, req, i);
      }
    } else {
      MisfitMerge(decode, n.log, req);
    }
  }

  /** Surviving entries are never repaired, whatever their number and command. */
  lemma SurvivorsStay(decode: EntryDecoder, n: Node, req: AppendRequest, pos: nat)
    requires Wellformed(req) && Accepts(decode, n, req)
    ensures 0 <= req.prevLogIndex <= |n.log|
    ensures var log := Append(decode, n, req).0.log;
            pos < Survives(n.log, req) ==> pos < |log| && log[pos] == n.log[pos]
  {
    AcceptedLog(decode, n, req);
  }

  /** The steady state of replication: the leader ships the entries that follow a
      follower's whole log, no more of them than the follower holds.  The follower
      answers success and stores nothing. */
  lemma SteadyStateStoresNothing(decode: EntryDecoder, n: Node, req: AppendRequest)
    requires req.prevLogIndex == |n.log| && 0 < |req.entries| <= |n.log|
    requires req.term >= n.currentTerm && req.prevLogTerm == n.log[|n.log| - 1].term
    ensures Append(decode, n, req).1.success && Append(decode, n, req).0.log == n.log
  {
  }

  // ---------- Applying ----------

  /** The commands at slice positions from..end of the log, fewer where the log is shorter. */
  function Span(log: seq<LogEntry>, from: nat, end: int): (r: seq<string>)
    ensures |r| == Max(0, Min(end, |log|) - from)
    ensures forall i :: 0 <= i < |r| ==> r[i] == log[from + i].command
  {
    seq(Max(0, Min(end, |log|) - from), i requires 0 <= i < Max(0, Min(end, |log|) - from) => log[from + i].command)
  }

  lemma SpanNext(log: seq<LogEntry>, from: nat, end: int)
    requires from < Min(end, |log|)
    ensures Span(log, from, end) == [log[from].command] + Span(log, from + 1, end)
  {
  }

  lemma SpanPart(log: seq<LogEntry>, from: nat, end: int, k: nat)
    requires k <= |Span(log, from, end)|
    ensures Span(log, from, end)[..k] == Span(log, from, from + k)
  {
  }

  /** The store's mark after `good` of these commands: never back, never past them, and
      level with them when the last one parsed. */
  ghost predicate MarkAfter(json: JsonDecoder, commands: seq<string>, base: nat, good: nat, before: int, after: int)
    requires good <= |commands|
  {
    if good == 0 then after == before
    else before <= after <= base + good && (Parses(json, commands[good - 1]) ==> after == base + good)
  }

  /** What the apply loop leaves after getting past the first `good` of these commands, from `base` on. */
  ghost predicate RanPast(json: JsonDecoder, commands: seq<string>, good: nat, base: nat, st: Store, r: Applied) {
    && good <= |commands|
    && (r.error.None? <==> good == |commands|)
    && r.lastApplied == base + good
    && r.store.data == Replay(json, st.data, commands[..good])
    && MarkAfter(json, commands, base, good, st.lastAppliedIndex, r.store.lastAppliedIndex)
  }

  ghost predicate Ran(json: JsonDecoder, commands: seq<string>, base: nat, st: Store, r: Applied) {
    RanPast(json, commands, GoodPrefix(json, commands), base, st, r)
  }

  lemma RanNext(json: JsonDecoder, commands: seq<string>, c: string, rest: seq<string>, base: nat, st: Store,
        st': Store, r: Applied)
    requires commands == [c] + rest && Passes(json, c)
    requires st'.data == Perform(json, st.data, c) && st.lastAppliedIndex <= st'.lastAppliedIndex <= base + 1
    requires Parses(json, c) ==> st'.lastAppliedIndex == base + 1
    requires Ran(json, rest, base + 1, st', r)
    ensures Ran(json, commands, base, st, r)
  {
    GoodNext(json, st.data, c, rest);
  }

  lemma RanNone(json: JsonDecoder, commands: seq<string>, base: nat, st: Store)
    requires commands == []
    ensures Ran(json, commands, base, st, Applied(base, st, None))
  {
  }

  lemma RanStop(json: JsonDecoder, commands: seq<string>, base: nat, st: Store, r: Applied)
    requires commands != [] && !Passes(json, commands[0]) && r.error.Some? && r == Applied(base, st, r.error)
    ensures Ran(json, commands, base, st, r)
  {
  }

  /** One turn of the loop, at an entry the store has not passed. */
  lemma {:induction false} ApplyTurn(json: JsonDecoder, log: seq<LogEntry>, commit: int, last: nat, st: Store)
    requires Indexed(log) && last < Min(commit, |log|) && st.lastAppliedIndex <= last
    ensures var r := ApplyFrom(json, log, commit, last + 1, last, st);
            var st' := ApplyEntry(json, st, log[last]).0;
            if Passes(json, log[last].command) then
              && r == ApplyFrom(json, log, commit, last + 2, last + 1, st')
              && st'.data == Perform(json, st.data, log[last].command)
              && st.lastAppliedIndex <= st'.lastAppliedIndex <= last + 1
              && (Parses(json, log[last].command) ==> st'.lastAppliedIndex == last + 1)
            else r.error.Some? && r == Applied(last, st, r.error)
  {
  }

  /** And at one it has passed. */
  lemma ApplySkip(json: JsonDecoder, log: seq<LogEntry>, commit: int, last: nat, st: Store)
    requires Indexed(log) && last < Min(commit, |log|) && last < st.lastAppliedIndex
    ensures ApplyFrom(json, log, commit, last + 1, last, st) == ApplyFrom(json, log, commit, last + 2, last + 1, st)
  {
  }

  lemma {:induction false} NewStops(json: JsonDecoder, log: seq<LogEntry>, commit: int, last: nat, st: Store)
    requires Indexed(log) && st.lastAppliedIndex <= last
    requires last < Min(commit, |log|) ==> !Passes(json, log[last].command)
    ensures Ran(json, Span(log, last, commit), last, st, ApplyFrom(json, log, commit, last + 1, last, st))
  {
    var r := ApplyFrom(json, log, commit, last + 1, last, st);
    if last < Min(commit, |log|) {
      ApplyTurn(json, log, commit, last, st);
      RanStop(json, Span(log, last, commit), last, st, r);
    } else {
      ApplyPast(json, log, commit, last, st);
      RanNone(json, Span(log, last, commit), last, st);
    }
  }

  lemma NewGoesOn(json: JsonDecoder, log: seq<LogEntry>, commit: int, last: nat, st: Store, st': Store)
    requires Indexed(log) && st.lastAppliedIndex <= last < Min(commit, |log|) && Passes(json, log[last].command)
    requires st' == ApplyEntry(json, st, log[last]).0
    requires Ran(json, Span(log, last + 1, commit), last + 1, st',
        ApplyFrom(json, log, commit, last + 2, last + 1, st'))
    ensures Ran(json, Span(log, last, commit), last, st, ApplyFrom(json, log, commit, last + 1, last, st))
  {
    ApplyTurn(json, log, commit, last, st);
    SpanNext(log, last, commit);
    RanNext(json, Span(log, last, commit), log[last].command, Span(log, last + 1, commit), last, st, st',
            ApplyFrom(json, log, commit, last + 1, last, st));
  }

  /** Entries the store has not passed are applied once each, in order, up to the
      end or to the first that the loop does not get past. */
  lemma {:induction false} ApplyNew(json: JsonDecoder, log: seq<LogEntry>, commit: int, last: nat, st: Store)
    requires Indexed(log) && st.lastAppliedIndex <= last
    ensures Ran(json, Span(log, last, commit), last, st, ApplyFrom(json, log, commit, last + 1, last, st))
    decreases |log| - last
  {
    if last < Min(commit, |log|) && Passes(json, log[last].command) {
      var st' := ApplyEntry(json, st, log[last]).0;
      ApplyNew(json, log, commit, last + 1, st');
      NewGoesOn(json, log, commit, last, st, st');
    } else {
      NewStops(json, log, commit, last, st);
    }
  }

  /** Entries the store already passed are skipped. */
  lemma {:induction false} ApplyOld(json: JsonDecoder, log: seq<LogEntry>, commit: int, last: nat, m: nat, st: Store)
    requires Indexed(log) && last <= m && (last < m ==> m <= st.lastAppliedIndex && m <= commit && m <= |log|)
    ensures ApplyFrom(json, log, commit, last + 1, last, st) == ApplyFrom(json, log, commit, m + 1, m, st)
    decreases m
  {
    if last < m {
      ApplyOld(json, log, commit, last, m - 1, st);
      ApplySkip(json, log, commit, m - 1, st);
    }
  }

  lemma {:induction false} ApplyPast(json: JsonDecoder, log: seq<LogEntry>, commit: int, last: nat, st: Store)
    requires last >= Min(commit, |log|)
    ensures ApplyFrom(json, log, commit, last + 1, last, st) == Applied(last, st, None)
  {
  }

  /** On any log, gaps and repeated numbers included, lastApplied never falls: an entry whose
      index it has reached is not applied again. */
  lemma {:induction false} NeverFalls(json: JsonDecoder, log: seq<LogEntry>, commit: int, i: int, last: int, st: Store)
    requires i >= 1
    ensures var r := ApplyFrom(json, log, commit, i, last, st);
            r.lastApplied >= last && r.store.lastAppliedIndex >= st.lastAppliedIndex
    decreases |log| - i
  {
    if i <= commit && i - 1 < |log| {
      ApplyFromNext(json, log, commit, i, last, st);
      var e := log[i - 1];
      if e.index <= last {
        NeverFalls(json, log, commit, i + 1, last, st);
      } else if !Halts(ApplyEntry(json, st, e).1) {
        NeverFalls(json, log, commit, i + 1, e.index, ApplyEntry(json, st, e).0);
      }
    }
  }

  /** When the store already holds everything committed, only lastApplied moves. */
  lemma {:induction false} ApplyHeld(json: JsonDecoder, log: seq<LogEntry>, commit: int, last: nat, st: Store)
    requires Indexed(log) && Min(commit, |log|) <= Max(last, st.lastAppliedIndex)
    ensures ApplyFrom(json, log, commit, last + 1, last, st) == Applied(Max(last, Min(commit, |log|)), st, None)
  {
    var m := Max(last, Min(commit, |log|));
    ApplyOld(json, log, commit, last, m, st);
    ApplyPast(json, log, commit, m, st);
  }

  lemma {:induction false} ApplyRest(json: JsonDecoder, log: seq<LogEntry>, commit: int, last: nat, st: Store)
    requires Indexed(log) && Min(commit, |log|) > Max(last, st.lastAppliedIndex)
    ensures var base := Max(last, st.lastAppliedIndex);
            Ran(json, Span(log, base, commit), base, st, ApplyFrom(json, log, commit, last + 1, last, st))
  {
    var m := Max(last, st.lastAppliedIndex);
    ApplyOld(json, log, commit, last, m, st);
    ApplyNew(json, log, commit, m, st);
  }

  /** The loop gets past the entries at these positions. */
  ghost predicate PassBetween(json: JsonDecoder, log: seq<LogEntry>, from: nat, to: int) {
    forall i :: from <= i < to && i < |log| ==> Passes(json, log[i].command)
  }

  /** The loop went from base to `last`, the end or an entry it does not get past. */
  ghost predicate Stops(json: JsonDecoder, log: seq<LogEntry>, base: nat, end: int, last: int, failed: bool) {
    && base <= last <= end <= |log|
    && (failed <==> last < end)
    && (failed ==> !Passes(json, log[last].command))
    && PassBetween(json, log, base, last)
  }

  lemma GoodStops(json: JsonDecoder, log: seq<LogEntry>, commit: int, base: nat)
    requires base < Min(commit, |log|)
    ensures var commands := Span(log, base, commit);
            var good := GoodPrefix(json, commands);
            Stops(json, log, base, Min(commit, |log|), base + good, good < |commands|)
  {
    var commands := Span(log, base, commit);
    var good := GoodPrefix(json, commands);
    forall i | base <= i < base + good ensures Passes(json, log[i].command) {
      assert commands[i - base] == log[i].command;
    }
    if good < |commands| {
      assert commands[good] == log[base + good].command;
    }
  }

  lemma RanStops(json: JsonDecoder, log: seq<LogEntry>, commit: int, base: nat, st: Store, r: Applied)
    requires base < Min(commit, |log|) && Ran(json, Span(log, base, commit), base, st, r)
    ensures Stops(json, log, base, Min(commit, |log|), r.lastApplied, r.error.Some?)
  {
    GoodStops(json, log, commit, base);
  }

  lemma {:induction false} ApplyStops(json: JsonDecoder, log: seq<LogEntry>, commit: int, last: nat, st: Store)
    requires Indexed(log) && Min(commit, |log|) > Max(last, st.lastAppliedIndex)
    ensures var r := ApplyFrom(json, log, commit, last + 1, last, st);
            Stops(json, log, Max(last, st.lastAppliedIndex), Min(commit, |log|), r.lastApplied, r.error.Some?)
  {
    ApplyRest(json, log, commit, last, st);
    RanStops(json, log, commit, Max(last, st.lastAppliedIndex), st, ApplyFrom(json, log, commit, last + 1, last, st));
  }

  /** The same about positions of the log. */
  ghost predicate MarkAt(json: JsonDecoder, log: seq<LogEntry>, base: nat, last: int, before: int, after: int)
    requires last <= Max(base, |log|)
  {
    if last <= base then after == before
    else before <= after <= last && (Parses(json, log[last - 1].command) ==> after == last)
  }

  /** The map has run through the entries after base up to `last`, and the mark has followed. */
  ghost predicate StoreAfter(json: JsonDecoder, log: seq<LogEntry>, base: nat, last: int, st: Store, st': Store)
    requires last <= Max(base, |log|)
  {
    if last <= base then st' == st
    else st'.data == Replay(json, st.data, Span(log, base, last))
         && MarkAt(json, log, base, last, st.lastAppliedIndex, st'.lastAppliedIndex)
  }

  lemma PastStores(json: JsonDecoder, log: seq<LogEntry>, commit: int, good: nat, base: nat, st: Store, r: Applied)
    requires RanPast(json, Span(log, base, commit), good, base, st, r)
    ensures base <= r.lastApplied <= Max(base, |log|)
    ensures r.store.data == Replay(json, st.data, Span(log, base, r.lastApplied))
    ensures MarkAt(json, log, base, r.lastApplied, st.lastAppliedIndex, r.store.lastAppliedIndex)
  {
    SpanPart(log, base, commit, good);
  }

  lemma {:induction false} ApplyStores(json: JsonDecoder, log: seq<LogEntry>, commit: int, last: nat, st: Store)
    requires Indexed(log) && Min(commit, |log|) > Max(last, st.lastAppliedIndex)
    ensures var r := ApplyFrom(json, log, commit, last + 1, last, st);
            var base := Max(last, st.lastAppliedIndex);
            && base <= r.lastApplied <= Max(base, |log|)
            && StoreAfter(json, log, base, r.lastApplied, st, r.store)
  {
    ApplyRest(json, log, commit, last, st);
    var base := Max(last, st.lastAppliedIndex);
    PastStores(json, log, commit, GoodPrefix(json, Span(log, base, commit)), base, st,
        ApplyFrom(json, log, commit, last + 1, last, st));
    SpanEmpty(json, log, base, st.data);
  }

  /** A pass over entries the store already holds. */
  lemma HeldPass(json: JsonDecoder, n: Node, st: Store)
    requires Indexed(n.log) && n.lastApplied >= 0
    requires Min(n.commitIndex, |n.log|) <= Max(n.lastApplied, st.lastAppliedIndex)
    ensures ApplyCommitted(json, n, st) ==
        (n.(lastApplied := Max(n.lastApplied, Min(n.commitIndex, |n.log|))), st, None)
  {
    if n.lastApplied < n.commitIndex {
      ApplyHeld(json, n.log, n.commitIndex, n.lastApplied, st);
    }
  }

  /** A pass over entries the store has not passed. */
  lemma RunPass(json: JsonDecoder, n: Node, st: Store)
    requires Indexed(n.log) && n.lastApplied >= 0
    requires Min(n.commitIndex, |n.log|) > Max(n.lastApplied, st.lastAppliedIndex)
    ensures var (n', _, error) := ApplyCommitted(json, n, st);
            var base := Max(n.lastApplied, st.lastAppliedIndex);
            && n' == n.(lastApplied := n'.lastApplied)
            && Stops(json, n.log, base, Min(n.commitIndex, |n.log|), n'.lastApplied, error.Some?)
  {
    ApplyStops(json, n.log, n.commitIndex, n.lastApplied, st);
  }

  /** Where one pass stops. */
  lemma AppliesUpTo(json: JsonDecoder, n: Node, st: Store)
    requires Indexed(n.log) && n.lastApplied >= 0
    ensures var (n', _, error) := ApplyCommitted(json, n, st);
            var end := Min(n.commitIndex, |n.log|);
            var base := Max(n.lastApplied, st.lastAppliedIndex);
            && n' == n.(lastApplied := n'.lastApplied)
            && if end <= base then error.None? && n'.lastApplied == Max(n.lastApplied, end)
               else Stops(json, n.log, base, end, n'.lastApplied, error.Some?)
  {
    if Min(n.commitIndex, |n.log|) <= Max(n.lastApplied, st.lastAppliedIndex) {
      HeldPass(json, n, st);
    } else {
      RunPass(json, n, st);
    }
  }

  /** What one pass makes of the store. */
  lemma AppliesSpan(json: JsonDecoder, n: Node, st: Store)
    requires Indexed(n.log) && n.lastApplied >= 0
    ensures var (n', st', _) := ApplyCommitted(json, n, st);
            var base := Max(n.lastApplied, st.lastAppliedIndex);
            n'.lastApplied <= Max(base, |n.log|) && StoreAfter(json, n.log, base, n'.lastApplied, st, st')
  {
    if n.lastApplied < n.commitIndex {
      if Min(n.commitIndex, |n.log|) <= Max(n.lastApplied, st.lastAppliedIndex) {
        ApplyHeld(json, n.log, n.commitIndex, n.lastApplied, st);
      } else {
        ApplyStores(json, n.log, n.commitIndex, n.lastApplied, st);
      }
    }
  }

  /** Exactly once, in order, never past the commit index: without an error
      lastApplied becomes max(lastApplied, min(commitIndex, length)); with one, the
      entry after lastApplied is committed and is one the loop cannot get past; either way the map
      has run through the entries from the store's mark to lastApplied and no
      others, so entries the store already holds change nothing. */
  lemma AppliesOnce(json: JsonDecoder, n: Node, st: Store)
    requires Indexed(n.log) && n.lastApplied >= 0
    ensures var (n', st', error) := ApplyCommitted(json, n, st);
            var end := Min(n.commitIndex, |n.log|);
            var base := Max(n.lastApplied, st.lastAppliedIndex);
            && n' == n.(lastApplied := n'.lastApplied) && n.lastApplied <= n'.lastApplied <= Max(n.lastApplied, end)
            && (error.None? ==> n'.lastApplied == Max(n.lastApplied, end))
            && (error.Some? ==> base <= n'.lastApplied < end && !Passes(json, n.log[n'.lastApplied].command))
            && PassBetween(json, n.log, base, n'.lastApplied)
            && StoreAfter(json, n.log, base, n'.lastApplied, st, st')
  {
    AppliesUpTo(json, n, st);
    AppliesSpan(json, n, st);
  }

  /** Running the loop again straight away changes nothing. */
  lemma ApplyAgain(json: JsonDecoder, n: Node, st: Store)
    requires Indexed(n.log) && n.lastApplied >= 0
    ensures var (n1, st1, _) := ApplyCommitted(json, n, st);
            n1.lastApplied >= 0 && ApplyCommitted(json, n1, st1).0 == n1 && ApplyCommitted(json, n1, st1).1 == st1
  {
    AppliesOnce(json, n, st);
    var (n1, st1, _) := ApplyCommitted(json, n, st);
    AppliesOnce(json, n1, st1);
  }

  lemma SpanEmpty(json: JsonDecoder, log: seq<LogEntry>, base: nat, data: Data)
    ensures Replay(json, data, Span(log, base, base)) == data
  {
  }
}
