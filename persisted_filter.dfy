/** The already-processed filter: the set of pointers applied before this
    poller began, the maximum the constructor caches, and the check that skips
    a polled record whose pointer was already applied. */
module PersistedFilter {
  import opened Ingestion

  /** No pointer of `s` exceeds `m`. */
  ghost predicate IsUpperBound(m: Pointer, s: set<Pointer>)
  {
    forall q :: q in s ==> q <= m
  }

  /** `max` is a faithful cache of the set's maximum: absent exactly when the
      set is empty, otherwise an element of the set that no element exceeds. */
  ghost predicate IsMaxCache(max: Option<Pointer>, persisted: set<Pointer>)
  {
    && (max.None? <==> persisted == {})
    && (max.Some? ==> max.value in persisted && IsUpperBound(max.value, persisted))
  }

  /** A non-empty set has an element to pick. */
  lemma NonEmptyHasElement(s: set<Pointer>)
    requires s != {}
    ensures exists x :: x in s
  {
    if forall x :: x !in s {
      assert false;
    }
  }

  /** The constructor's `persistedPointers.stream().max(compareTo)`, left
      absent when the set is empty. */
  method ComputeMax(persisted: set<Pointer>) returns (max: Option<Pointer>)
    ensures IsMaxCache(max, persisted)
  {
    max := None;
    var rest: set<Pointer>, seen: set<Pointer> := persisted, {};
    while rest != {}
      invariant rest + seen == persisted && rest !! seen
      invariant max.None? <==> seen == {}
      invariant max.Some? ==> max.value in seen && IsUpperBound(max.value, seen)
      decreases rest
    {
      NonEmptyHasElement(rest);
      var p :| p in rest;
      if max.None? || p > max.value {
        max := Some(p);
      }
      rest, seen := rest - {p}, seen + {p};
    }
  }

  /** `isProcessed`: no cached maximum means nothing was applied; a pointer
      beyond the maximum cannot be in the set; otherwise look it up. Whatever
      the cache holds, a record is only reported processed when its pointer
      really is in the set. */
  function IsProcessed(max: Option<Pointer>, persisted: set<Pointer>, p: Pointer): (r: bool)
    ensures r ==> p in persisted
  {
    if max.None? then false
    else if p > max.value then false
    else p in persisted
  }

  /** With a faithful cache, the short-circuits never change the answer:
      the check is exactly set membership. */
  lemma IsProcessedIsMembership(max: Option<Pointer>, persisted: set<Pointer>, p: Pointer)
    requires IsMaxCache(max, persisted)
    ensures IsProcessed(max, persisted, p) <==> p in persisted
  {
  }

  /** The two fast paths: with an empty set, and for a pointer beyond every
      persisted pointer, a record is never skipped. */
  lemma NotProcessedFastPaths(max: Option<Pointer>, persisted: set<Pointer>, p: Pointer)
    requires IsMaxCache(max, persisted)
    ensures persisted == {} ==> !IsProcessed(max, persisted, p)
    ensures (forall q :: q in persisted ==> q < p) ==> !IsProcessed(max, persisted, p)
  {
  }

  /** The records of a batch that the dispatch loop hands to the queue, in
      batch order: those whose pointer is not already processed. */
  function Enqueued(records: seq<ReadResult>, max: Option<Pointer>, persisted: set<Pointer>): (r: seq<ReadResult>)
    ensures |r| <= |records|
  {
    if records == [] then []
    else
      var last := records[|records| - 1];
      Enqueued(records[..|records| - 1], max, persisted)
        + (if IsProcessed(max, persisted, last.pointer) then [] else [last])
  }

  /** Filtering one more record of a batch appends that record unless it is
      already processed. */
  lemma EnqueuedExtend(records: seq<ReadResult>, i: nat, max: Option<Pointer>, persisted: set<Pointer>)
    requires i < |records|
    ensures Enqueued(records[..i + 1], max, persisted)
         == Enqueued(records[..i], max, persisted)
            + (if IsProcessed(max, persisted, records[i].pointer) then [] else [records[i]])
  {
    assert records[..i + 1][..i] == records[..i];
  }

  /** A reference definition that ignores the cache: keep the records whose
      pointer is not in the persisted set. */
  function NotPersisted(records: seq<ReadResult>, persisted: set<Pointer>): seq<ReadResult>
  {
    if records == [] then []
    else (if records[0].pointer in persisted then [] else [records[0]]) + NotPersisted(records[1..], persisted)
  }

  /** Filtering a concatenation filters each part and keeps them in order. */
  lemma {:induction false} EnqueuedAppend(a: seq<ReadResult>, b: seq<ReadResult>, max: Option<Pointer>, persisted: set<Pointer>)
    ensures Enqueued(a + b, max, persisted) == Enqueued(a, max, persisted) + Enqueued(b, max, persisted)
    decreases |b|
  {
    if b == [] {
      assert a + b == a;
    } else {
      var b' := b[..|b| - 1];
      var last := b[|b| - 1];
      assert (a + b)[..|a + b| - 1] == a + b';
      assert (a + b)[|a + b| - 1] == last;
      EnqueuedAppend(a, b', max, persisted);
    }
  }

  /** A one-record batch is enqueued exactly when its record is not processed. */
  lemma EnqueuedSingle(x: ReadResult, max: Option<Pointer>, persisted: set<Pointer>)
    ensures Enqueued([x], max, persisted) == if IsProcessed(max, persisted, x.pointer) then [] else [x]
  {
    assert [x][..0] == [];
  }

  /** What reaches the queue is exactly the reference filter: every record of
      the batch whose pointer is not persisted, and no other, in batch order. */
  lemma {:induction false} EnqueuedIsNotPersisted(records: seq<ReadResult>, max: Option<Pointer>, persisted: set<Pointer>)
    requires IsMaxCache(max, persisted)
    ensures Enqueued(records, max, persisted) == NotPersisted(records, persisted)
    decreases |records|
  {
    if records != [] {
      var head, tail := records[0], records[1..];
      assert records == [head] + tail;
      EnqueuedAppend([head], tail, max, persisted);
      EnqueuedSingle(head, max, persisted);
      IsProcessedIsMembership(max, persisted, head.pointer);
      EnqueuedIsNotPersisted(tail, max, persisted);
    }
  }

  /** Both directions of membership: a record of the batch is enqueued if and
      only if its pointer is not in the persisted set. */
  lemma {:induction false} EnqueuedMembership(records: seq<ReadResult>, max: Option<Pointer>, persisted: set<Pointer>, x: ReadResult)
    requires IsMaxCache(max, persisted)
    ensures x in Enqueued(records, max, persisted) <==> x in records && x.pointer !in persisted
    decreases |records|
  {
    if records != [] {
      var init := records[..|records| - 1];
      assert records == init + [records[|records| - 1]];
      IsProcessedIsMembership(max, persisted, records[|records| - 1].pointer);
      EnqueuedMembership(init, max, persisted, x);
    }
  }
}
