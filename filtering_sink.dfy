/**
 * The filtering sink adapter: a gate that decides, message by message, whether a
 * received message goes on to processing. Messages are of an opaque type `M`.
 */
module FilteringSink {

  /**
   * The adapter interface: a total boolean predicate over messages. A total arrow that
   * reads nothing, so its answer depends on the message alone and every call with the
   * same message gives the same answer.
   */
  type FilteringSinkAdapter<-M> = M -> bool

  /** The default adapter's `shouldProcess`: accepts every message, whatever it holds. */
  function DefaultShouldProcess<M>(message: M): (accepted: bool)
    ensures accepted
  {
    true
  }

  /** The default adapter, seen through the interface. */
  function DefaultFilteringSinkAdapter<M>(): (adapter: FilteringSinkAdapter<M>)
    ensures adapter == DefaultShouldProcess
  {
    DefaultShouldProcess
  }

  /** The messages of a batch that an adapter lets through, in their original order. */
  function Filter<M>(adapter: FilteringSinkAdapter<M>, batch: seq<M>): (kept: seq<M>)
    ensures |kept| <= |batch|
    ensures forall i :: 0 <= i < |kept| ==> kept[i] in batch && adapter(kept[i])
    ensures forall i :: 0 <= i < |batch| && adapter(batch[i]) ==> batch[i] in kept
  {
    if batch == [] then []
    else if adapter(batch[0]) then [batch[0]] + Filter(adapter, batch[1..])
    else Filter(adapter, batch[1..])
  }

  /** Each message occurs in the result as often as in the batch if the adapter accepts it, and never otherwise. */
  lemma {:induction false} FilterCounts<M>(adapter: FilteringSinkAdapter<M>, batch: seq<M>)
    ensures forall m :: multiset(Filter(adapter, batch))[m] == if adapter(m) then multiset(batch)[m] else 0
  {
    if batch != [] {
      FilterCounts(adapter, batch[1..]);
      assert batch == [batch[0]] + batch[1..];
    }
  }

  /** Filtering works message by message: the filtered halves of a batch, in order, make the filtered batch. */
  lemma {:induction false} FilterAppend<M>(adapter: FilteringSinkAdapter<M>, front: seq<M>, back: seq<M>)
    ensures Filter(adapter, front + back) == Filter(adapter, front) + Filter(adapter, back)
  {
    if front != [] {
      assert (front + back)[1..] == front[1..] + back;
      FilterAppend(adapter, front[1..], back);
    } else {
      assert front + back == back;
    }
  }

  /** Filtering leaves a batch unchanged exactly when the adapter accepts every message in it. */
  lemma {:induction false} FilterUnchangedIff<M>(adapter: FilteringSinkAdapter<M>, batch: seq<M>)
    ensures Filter(adapter, batch) == batch <==> forall i :: 0 <= i < |batch| ==> adapter(batch[i])
  {
    if forall i :: 0 <= i < |batch| ==> adapter(batch[i]) {
      if batch != [] {
        assert forall i :: 0 <= i < |batch[1..]| ==> adapter(batch[1..][i]) by {
          forall i | 0 <= i < |batch[1..]| ensures adapter(batch[1..][i]) {
            assert batch[1..][i] == batch[i + 1];
          }
        }
        FilterUnchangedIff(adapter, batch[1..]);
      }
    } else {
      var i :| 0 <= i < |batch| && !adapter(batch[i]);
      assert batch[i] in batch && batch[i] !in Filter(adapter, batch);
    }
  }

  /** The default adapter passes any batch through unchanged: same messages, length and order. */
  lemma {:induction false} DefaultFilterKeepsBatch<M>(batch: seq<M>)
    ensures Filter(DefaultFilteringSinkAdapter(), batch) == batch
  {
    FilterUnchangedIff(DefaultFilteringSinkAdapter(), batch);
  }

  /** Filtering a second time changes nothing: an adapter's answers do not depend on earlier calls. */
  lemma {:induction false} FilterIdempotent<M>(adapter: FilteringSinkAdapter<M>, batch: seq<M>)
    ensures Filter(adapter, Filter(adapter, batch)) == Filter(adapter, batch)
  {
    FilterUnchangedIff(adapter, Filter(adapter, batch));
  }
}
