/** Counting arguments behind the two thresholds of the code: an election needs
    totalVotes/2+1 votes out of |peers|+1 nodes, a replication needs |peers|/2+1
    acknowledgements counting the leader's own. */
module Quorums {

  function VoteThreshold(clusterSize: nat): nat { clusterSize / 2 + 1 }

  function AckThreshold(peers: nat): nat { peers / 2 + 1 }

  lemma {:induction false} SubsetSize<T>(a: set<T>, b: set<T>)
    requires a <= b
    ensures |a| <= |b|
    decreases a
  {
    if a != {} {
      var x :| x in a;
      SubsetSize(a - {x}, b - {x});
    }
  }

  lemma Overlap<T>(nodes: set<T>, a: set<T>, b: set<T>)
    requires a <= nodes && b <= nodes && |a| + |b| > |nodes|
    ensures a * b != {}
  {
    SubsetSize(a + b, nodes);
    assert |a + b| == |a| + |b| - |a * b|;
  }

  lemma {:induction false} SubsetOfSize<T>(s: set<T>, k: nat) returns (r: set<T>)
    requires k <= |s|
    ensures r <= s && |r| == k
    decreases k
  {
    if k == 0 {
      r := {};
    } else {
      var x :| x in s;
      var rest := SubsetOfSize(s - {x}, k - 1);
      r := rest + {x};
    }
  }

  lemma {:induction false} DistinctCount<T>(s: seq<T>)
    requires forall i, j :: 0 <= i < j < |s| ==> s[i] != s[j]
    ensures |(set x | x in s)| == |s|
  {
    if s != [] {
      var n := |s| - 1;
      DistinctCount(s[..n]);
      assert (set x | x in s) == (set x | x in s[..n]) + {s[n]};
    }
  }

  /** Two vote quorums share a node, and so do a vote quorum and an acknowledgement
      quorum, in a cluster of any size. */
  lemma QuorumsMeet<T>(nodes: set<T>, votes: set<T>, other: set<T>)
    requires nodes != {} && votes <= nodes && other <= nodes
    requires |votes| >= VoteThreshold(|nodes|)
    requires |other| >= AckThreshold(|nodes| - 1) || |other| >= VoteThreshold(|nodes|)
    ensures votes * other != {}
  {
    Overlap(nodes, votes, other);
  }

  /** Two acknowledgement quorums of the smallest size always share a node exactly
      when the cluster size is odd. */
  lemma AckQuorumsMeet<T(!new)>(nodes: set<T>)
    requires nodes != {}
    ensures |nodes| % 2 == 1 <==>
            forall a: set<T>, b: set<T> ::
              a <= nodes && b <= nodes && |a| == |b| == AckThreshold(|nodes| - 1) ==> a * b != {}
  {
    var k := AckThreshold(|nodes| - 1);
    if |nodes| % 2 == 1 {
      forall a: set<T>, b: set<T> | a <= nodes && b <= nodes && |a| == |b| == k
        ensures a * b != {}
      {
        Overlap(nodes, a, b);
      }
    } else {
      var a := SubsetOfSize(nodes, k);
      var b := nodes - a;
      assert |b| == |nodes| - |a| == k;
      assert a * b == {};
    }
  }
}
