/** The three acquire/release pairs. Each package-level sync.Pool becomes a Store passed
    in by the caller. Release converts its pointer argument to an interface value before
    Put, and a nil pointer converted so is not the nil interface: release of nil skips the
    reset but still makes the pool retain a nil pointer, which a later acquire may hand
    out. The store invariant is therefore that every NON-nil instance a store retains has
    been reset; release keeps it by resetting before Put, and acquire keeps it because it
    only takes instances out. Hence whatever non-nil instance acquire returns is clean,
    and acquire returns nil only when the store held a nil. */
module Pools {
  import opened GoValues
  import opened Envelopes
  import opened SyncPool

  /** Every non-nil Publishing that the publishing pool retains has been reset. */
  ghost predicate PublishingPoolClean(pool: Store<Publishing?>)
    reads pool, pool.items
  {
    forall x :: x in pool.items && x != null ==> x.IsReset()
  }

  /** Takes a retained Publishing pointer from the pool, or allocates &Publishing{} on a miss. A
      fresh result has a nil body and leaves the pool as it was; a retained one leaves the
      pool one occurrence smaller and is either reset (an empty non-nil body) or nil, the
      latter only when the pool retained a nil pointer. */
  method AcquirePublishing(pool: Store<Publishing?>) returns (x: Publishing?)
    requires PublishingPoolClean(pool)
    modifies pool
    ensures PublishingPoolClean(pool)
    ensures x != null ==> x.IsClean()
    ensures x == null ==> null in old(pool.items)
    ensures x != null && fresh(x) ==> x.IsNew() && pool.items == old(pool.items) && x !in pool.items
    ensures x == null || !fresh(x) ==>
      x in old(pool.items) && multiset(pool.items) + multiset{x} == multiset(old(pool.items))
    ensures x != null && !fresh(x) ==> x.IsReset()
    ensures null !in old(pool.items) ==> null !in pool.items
    ensures old(pool.items) == [] ==> x != null && fresh(x)
  {
    var v := pool.Get();
    if v == None {
      x := new Publishing();
      return;
    }
    x := v.value;
  }

  /** Resets a non-nil pub and gives the pointer back to the pool. A nil pub is not reset,
      but the Put still receives a non-nil interface holding the nil pointer, so the pool
      retains nil. Whether pub is already retained is not checked. */
  method ReleasePublishing(pool: Store<Publishing?>, pub: Publishing?)
    requires PublishingPoolClean(pool)
    modifies pool, pub
    ensures PublishingPoolClean(pool)
    ensures pub != null ==> pub.IsReset()
    ensures pool.items == old(pool.items) + [pub]
  {
    if pub != null {
      pub.Reset();
    }
    pool.Put(Some(pub));
  }

  /** The release evidently intended: a nil pub is neither reset nor put back, so a pool
      that retains no nil pointer never comes to retain one. */
  method ReleasePublishingNonNil(pool: Store<Publishing?>, pub: Publishing?)
    requires PublishingPoolClean(pool)
    modifies pool, pub
    ensures PublishingPoolClean(pool)
    ensures pub == null ==> pool.items == old(pool.items)
    ensures pub != null ==> pub.IsReset() && pool.items == old(pool.items) + [pub]
    ensures null !in old(pool.items) ==> null !in pool.items
  {
    if pub != null {
      pub.Reset();
      pool.Put(Some(pub));
    }
  }

  /** Every non-nil basicPublish that the basicPublish pool retains has been reset. */
  ghost predicate BasicPublishPoolClean(pool: Store<BasicPublish?>)
    reads pool, pool.items
  {
    forall x :: x in pool.items && x != null ==> x.IsReset()
  }

  /** Takes a retained basicPublish pointer from the pool, or allocates &basicPublish{} on a miss. A
      fresh result has a nil body and leaves the pool as it was; a retained one leaves the
      pool one occurrence smaller and is either reset (an empty non-nil body) or nil, the
      latter only when the pool retained a nil pointer. */
  method AcquireBasicPublish(pool: Store<BasicPublish?>) returns (x: BasicPublish?)
    requires BasicPublishPoolClean(pool)
    modifies pool
    ensures BasicPublishPoolClean(pool)
    ensures x != null ==> x.IsClean()
    ensures x == null ==> null in old(pool.items)
    ensures x != null && fresh(x) ==> x.IsNew() && pool.items == old(pool.items) && x !in pool.items
    ensures x == null || !fresh(x) ==>
      x in old(pool.items) && multiset(pool.items) + multiset{x} == multiset(old(pool.items))
    ensures x != null && !fresh(x) ==> x.IsReset()
    ensures null !in old(pool.items) ==> null !in pool.items
    ensures old(pool.items) == [] ==> x != null && fresh(x)
  {
    var v := pool.Get();
    if v == None {
      x := new BasicPublish();
      return;
    }
    x := v.value;
  }

  /** Resets a non-nil bPub and gives the pointer back to the pool. A nil bPub is not reset,
      but the Put still receives a non-nil interface holding the nil pointer, so the pool
      retains nil. Whether bPub is already retained is not checked. */
  method ReleaseBasicPublishing(pool: Store<BasicPublish?>, bPub: BasicPublish?)
    requires BasicPublishPoolClean(pool)
    modifies pool, bPub
    ensures BasicPublishPoolClean(pool)
    ensures bPub != null ==> bPub.IsReset()
    ensures pool.items == old(pool.items) + [bPub]
  {
    if bPub != null {
      bPub.Reset();
    }
    pool.Put(Some(bPub));
  }

  /** The release evidently intended: a nil bPub is neither reset nor put back, so a pool
      that retains no nil pointer never comes to retain one. */
  method ReleaseBasicPublishingNonNil(pool: Store<BasicPublish?>, bPub: BasicPublish?)
    requires BasicPublishPoolClean(pool)
    modifies pool, bPub
    ensures BasicPublishPoolClean(pool)
    ensures bPub == null ==> pool.items == old(pool.items)
    ensures bPub != null ==> bPub.IsReset() && pool.items == old(pool.items) + [bPub]
    ensures null !in old(pool.items) ==> null !in pool.items
  {
    if bPub != null {
      bPub.Reset();
      pool.Put(Some(bPub));
    }
  }

  /** Every non-nil Delivery that the delivery pool retains has been reset. */
  ghost predicate DeliveryPoolClean(pool: Store<Delivery?>)
    reads pool, pool.items
  {
    forall x :: x in pool.items && x != null ==> x.IsReset()
  }

  /** Takes a retained Delivery pointer from the pool, or allocates &Delivery{} on a miss. A
      fresh result has a nil body and leaves the pool as it was; a retained one leaves the
      pool one occurrence smaller and is either reset (an empty non-nil body) or nil, the
      latter only when the pool retained a nil pointer. */
  method AcquireDelivery(pool: Store<Delivery?>) returns (x: Delivery?)
    requires DeliveryPoolClean(pool)
    modifies pool
    ensures DeliveryPoolClean(pool)
    ensures x != null ==> x.IsClean()
    ensures x == null ==> null in old(pool.items)
    ensures x != null && fresh(x) ==> x.IsNew() && pool.items == old(pool.items) && x !in pool.items
    ensures x == null || !fresh(x) ==>
      x in old(pool.items) && multiset(pool.items) + multiset{x} == multiset(old(pool.items))
    ensures x != null && !fresh(x) ==> x.IsReset()
    ensures null !in old(pool.items) ==> null !in pool.items
    ensures old(pool.items) == [] ==> x != null && fresh(x)
  {
    var v := pool.Get();
    if v == None {
      x := new Delivery();
      return;
    }
    x := v.value;
  }

  /** Resets a non-nil del and gives the pointer back to the pool. A nil del is not reset,
      but the Put still receives a non-nil interface holding the nil pointer, so the pool
      retains nil. Whether del is already retained is not checked. */
  method ReleaseDelivery(pool: Store<Delivery?>, del: Delivery?)
    requires DeliveryPoolClean(pool)
    modifies pool, del
    ensures DeliveryPoolClean(pool)
    ensures del != null ==> del.IsReset()
    ensures pool.items == old(pool.items) + [del]
  {
    if del != null {
      del.Reset();
    }
    pool.Put(Some(del));
  }

  /** The release evidently intended: a nil del is neither reset nor put back, so a pool
      that retains no nil pointer never comes to retain one. */
  method ReleaseDeliveryNonNil(pool: Store<Delivery?>, del: Delivery?)
    requires DeliveryPoolClean(pool)
    modifies pool, del
    ensures DeliveryPoolClean(pool)
    ensures del == null ==> pool.items == old(pool.items)
    ensures del != null ==> del.IsReset() && pool.items == old(pool.items) + [del]
    ensures null !in old(pool.items) ==> null !in pool.items
  {
    if del != null {
      del.Reset();
      pool.Put(Some(del));
    }
  }
}
