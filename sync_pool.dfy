/** A sync.Pool without a New function, seen by one caller at a time: a bag of retained
    instances from which Get takes some element or misses, and to which Put adds one. */
module SyncPool {
  import opened GoValues

  /** The store after instance i has been taken out of it. */
  function AfterTake<T>(s: seq<T>, i: nat): (r: seq<T>)
    requires i < |s|
    ensures |r| == |s| - 1
    ensures forall j :: 0 <= j < i ==> r[j] == s[j]
    ensures forall j :: i <= j < |r| ==> r[j] == s[j + 1]
  {
    s[..i] + s[i + 1..]
  }

  /** Taking instance i out loses exactly that one occurrence and nothing else. */
  lemma TakeMultiset<T>(s: seq<T>, i: nat)
    requires i < |s|
    ensures multiset(AfterTake(s, i)) + multiset{s[i]} == multiset(s)
    ensures forall y :: y in AfterTake(s, i) ==> y in s
  {
    assert s == s[..i] + [s[i]] + s[i + 1..];
  }

  /** The store after Put(x): Put(nil) is ignored, anything else is retained. */
  function AfterPut<T>(s: seq<T>, x: Option<T>): (r: seq<T>)
    ensures x == None ==> r == s
    ensures x.Some? ==> multiset(r) == multiset(s) + multiset{x.value}
  {
    match x
    case None => s
    case Some(v) => s + [v]
  }

  /** Taking instance i and putting it back restores the store as a bag: the round trip
      of an acquire that hits followed by the release of the same instance. Only the
      order of the retained instances can change. */
  lemma TakeThenPut<T>(s: seq<T>, i: nat)
    requires i < |s|
    ensures AfterPut(AfterTake(s, i), Some(s[i])) == AfterTake(s, i) + [s[i]]
    ensures multiset(AfterTake(s, i) + [s[i]]) == multiset(s)
  {
    TakeMultiset(s, i);
  }

  class Store<T> {
    /** The instances the pool currently retains. */
    var items: seq<T>

    /** The zero sync.Pool: it retains nothing. */
    constructor ()
      ensures items == []
    {
      items := [];
    }

    /** Get: either a miss (None, the store unchanged) or one retained instance, which
        leaves the store. A miss may happen even when the store is not empty. */
    method Get() returns (v: Option<T>)
      modifies this
      ensures v == None ==> items == old(items)
      ensures v.Some? ==> v.value in old(items)
      ensures v.Some? ==> multiset(items) + multiset{v.value} == multiset(old(items))
      ensures forall y :: y in items ==> y in old(items)
      ensures v.Some? ==>
        (exists i :: 0 <= i < |old(items)| && old(items)[i] == v.value &&
           items == AfterTake(old(items), i))
    {
      if |items| == 0 {
        v := None;
      } else {
        var i :| 0 <= i < |items|;
        TakeMultiset(items, i);
        v := Some(items[i]);
        items := AfterTake(items, i);
      }
    }

    /** Put: retains x; Put(nil) leaves the store as it was. */
    method Put(x: Option<T>)
      modifies this
      ensures items == AfterPut(old(items), x)
    {
      items := AfterPut(items, x);
    }
  }
}
