/** What a map lacks that performed only the end of a log: a node that comes back
    with a log on disk and an empty map performs what is logged from some point on. */
module TailFold {
  import opened KvStore
  import opened Replication
  import opened LeaderStore
  import opened RaftTypes
  import Folding

  /** What operation number b left under its key; 0 stands for no operation. */
  function Left(ops: seq<Op>, b: nat): Option<string>
    requires b <= |ops|
  {
    if b > 0 && ops[b - 1].Put? then Some(ops[b - 1].value) else None
  }

  function Look(data: Data, key: string): Option<string> {
    if key in data then Some(data[key]) else None
  }

  lemma {:induction false} FoldLooks(ops: seq<Op>, indices: seq<nat>, key: string)
    requires Within(indices, |ops|)
    ensures LastOn(ops, indices, key) <= |ops| && Look(Fold(ops, indices), key) == Left(ops, LastOn(ops, indices, key))
  {
    FoldReads(ops, indices, key);
  }

  lemma SameLooks(a: Data, b: Data)
    ensures a == b <==> forall key :: Look(a, key) == Look(b, key)
  {
    if forall key :: Look(a, key) == Look(b, key) {
      forall key ensures key in a <==> key in b { assert Look(a, key) == Look(b, key); }
      forall key | key in a ensures a[key] == b[key] { assert Look(a, key) == Look(b, key); }
    }
  }

  /** What the last of these operations on the key left there. */
  ghost function LastLeft(ops: seq<Op>, indices: seq<nat>, key: string): (r: Option<string>)
    requires Within(indices, |ops|)
    ensures r == Look(Fold(ops, indices), key)
  {
    FoldLooks(ops, indices, key);
    Left(ops, LastOn(ops, indices, key))
  }

  lemma FoldsAgreeIff(ops: seq<Op>, a: seq<nat>, b: seq<nat>)
    requires Within(a, |ops|) && Within(b, |ops|)
    ensures Fold(ops, a) == Fold(ops, b) <==> forall key :: LastLeft(ops, a, key) == LastLeft(ops, b, key)
  {
    SameLooks(Fold(ops, a), Fold(ops, b));
    forall key
      ensures Look(Fold(ops, a), key) == Look(Fold(ops, b), key) <==> LastLeft(ops, a, key) == LastLeft(ops, b, key)
    {
      assert LastLeft(ops, a, key) == Look(Fold(ops, a), key);
      assert LastLeft(ops, b, key) == Look(Fold(ops, b), key);
    }
  }

  lemma RangeWithin(k: nat, n: nat)
    ensures Ascending(Range(k + 1, n), n)
  {
  }

  /** Performing the indices past k is performing the operations from position k on. */
  lemma {:induction false} TailFolds(ops: seq<Op>, k: nat)
    requires k <= |ops|
    ensures Within(Range(k + 1, |ops|), |ops|)
    ensures Fold(ops, Range(k + 1, |ops|)) == Folding.All(OpEffect, map[], ops[k..])
  {
    RangeWithin(k, |ops|);
    var picked := Pick(ops, Range(k + 1, |ops|));
    forall i | 0 <= i < |ops| - k ensures picked[i] == ops[k..][i] {
      assert Range(k + 1, |ops|)[i] == k + 1 + i;
    }
    assert picked == ops[k..];
  }

  lemma {:induction false} LastOnConcat(ops: seq<Op>, a: seq<nat>, b: seq<nat>, key: string)
    requires Within(a, |ops|) && Within(b, |ops|) && Within(a + b, |ops|)
    ensures LastOn(ops, a + b, key) == if LastOn(ops, b, key) > 0 then LastOn(ops, b, key) else LastOn(ops, a, key)
    decreases |b|
  {
    if b == [] {
      assert a + b == a;
    } else {
      var front, i := b[..|b| - 1], b[|b| - 1];
      assert b == front + [i] && a + b == (a + front) + [i];
      LastOnConcat(ops, a, front, key);
      LastOnSnoc(ops, front, i, key);
      LastOnSnoc(ops, a + front, i, key);
    }
  }

  lemma {:induction false} LastInRange(ops: seq<Op>, from: nat, to: nat, key: string)
    requires Within(Range(from, to), |ops|)
    ensures var b := LastOn(ops, Range(from, to), key); b == 0 || from <= b <= to
  {
  }

  lemma {:induction false} LastOnTail(ops: seq<Op>, k: nat, key: string)
    requires k <= |ops| && Within(Range(1, |ops|), |ops|) && Within(Range(k + 1, |ops|), |ops|)
    ensures var b := LastOn(ops, Range(1, |ops|), key);
            LastOn(ops, Range(k + 1, |ops|), key) == if b > k then b else 0
  {
    RangeWithin(0, k);
    assert Range(1, |ops|) == Range(1, k) + Range(k + 1, |ops|);
    LastOnConcat(ops, Range(1, k), Range(k + 1, |ops|), key);
    LastInRange(ops, 1, k, key);
    LastInRange(ops, k + 1, |ops|, key);
  }

  lemma {:induction false} LastBounds(ops: seq<Op>, key: string, i: nat)
    requires i < |ops| && Touches(ops[i], key) && Ascending(Range(1, |ops|), |ops|)
    ensures i < LastOn(ops, Range(1, |ops|), key)
  {
    assert Range(1, |ops|)[i] == i + 1;
    LastOnIsLast(ops, Range(1, |ops|), key, i + 1);
  }

  /** The number of the last operation on the key, 0 when there is none. */
  ghost function LastLogged(ops: seq<Op>, key: string): (b: nat)
    ensures b <= |ops| && (b > 0 ==> Touches(ops[b - 1], key))
    ensures forall i :: 0 <= i < |ops| && Touches(ops[i], key) ==> i < b
  {
    RangeWithin(0, |ops|);
    LastInRange(ops, 1, |ops|, key);
    assert forall i :: 0 <= i < |ops| && Touches(ops[i], key) ==> i < LastOn(ops, Range(1, |ops|), key) by {
      forall i | 0 <= i < |ops| && Touches(ops[i], key) { LastBounds(ops, key, i); }
    }
    LastOn(ops, Range(1, |ops|), key)
  }

  /** The operation at this position leaves nothing, or a later one is on its key. */
  ghost predicate Replaceable(ops: seq<Op>, i: nat)
    requires i < |ops|
  {
    ops[i].Remove? || exists j :: i < j < |ops| && Touches(ops[j], ops[i].key)
  }

  /** None of the first k operations would show. */
  ghost predicate NothingLost(ops: seq<Op>, k: nat)
    requires k <= |ops|
  {
    forall i :: 0 <= i < k ==> Replaceable(ops, i)
  }

  /** On this key the last operation is past the first k or leaves nothing. */
  ghost predicate KeyKept(ops: seq<Op>, k: nat, key: string) {
    var b := LastLogged(ops, key);
    b > k || Left(ops, b) == None
  }

  lemma KeptIff(ops: seq<Op>, k: nat, key: string)
    requires k <= |ops| && Within(Range(1, |ops|), |ops|) && Within(Range(k + 1, |ops|), |ops|)
    ensures LastLeft(ops, Range(k + 1, |ops|), key) == LastLeft(ops, Range(1, |ops|), key) <==> KeyKept(ops, k, key)
  {
    LastOnTail(ops, k, key);
  }

  lemma NothingLostIff(ops: seq<Op>, k: nat)
    requires k <= |ops|
    ensures NothingLost(ops, k) <==> forall key :: KeyKept(ops, k, key)
  {
    if NothingLost(ops, k) {
      forall key ensures KeyKept(ops, k, key) {
        var b := LastLogged(ops, key);
        assert 0 < b <= k ==> Replaceable(ops, b - 1);
      }
    }
    if forall key :: KeyKept(ops, k, key) {
      forall i | 0 <= i < k ensures Replaceable(ops, i) {
        assert KeyKept(ops, k, ops[i].key);
        var b := LastLogged(ops, ops[i].key);
        assert Touches(ops[i], ops[i].key);
        assert b - 1 > i ==> Touches(ops[b - 1], ops[i].key);
      }
    }
  }

  lemma TailsAgreeIff(ops: seq<Op>, k: nat)
    requires k <= |ops| && Within(Range(1, |ops|), |ops|) && Within(Range(k + 1, |ops|), |ops|)
    ensures Fold(ops, Range(k + 1, |ops|)) == Fold(ops, Range(1, |ops|)) <==> NothingLost(ops, k)
  {
    var tail, whole := Range(k + 1, |ops|), Range(1, |ops|);
    FoldsAgreeIff(ops, tail, whole);
    NothingLostIff(ops, k);
    forall key ensures LastLeft(ops, tail, key) == LastLeft(ops, whole, key) <==> KeyKept(ops, k, key) {
      KeptIff(ops, k, key);
    }
  }

  /** Leaving out the first k operations changes nothing if and only if each of them
      leaves nothing or has a later operation on its key. */
  lemma {:induction false} DropIff(ops: seq<Op>, k: nat)
    requires k <= |ops|
    ensures Folding.All(OpEffect, map[], ops[k..]) == Folding.All(OpEffect, map[], ops) <==> NothingLost(ops, k)
  {
    TailFolds(ops, k);
    TailFolds(ops, 0);
    assert ops[0..] == ops;
    TailsAgreeIff(ops, k);
  }
}
