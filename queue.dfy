/** The outbound queue `_oQueue`: a FIFO of batches shared by the producers
    and the single worker. Its class is declared in a header that is not
    part of this model, so the contracts of `BatchQueue` are the assumed
    behaviour of `push` and `wait_pop`: push appends at the tail, wait_pop
    removes the head. */
module OutboundQueue {
  import opened IoTypes

  /** The buffers of a sequence of batches, batch after batch, each batch in
      its own order. */
  function Flatten(q: seq<Batch>): seq<IoData>
  {
    if q == [] then [] else q[0] + Flatten(q[1..])
  }

  /** Flattening distributes over concatenation of queues. */
  lemma {:induction false} FlattenAppend(p: seq<Batch>, q: seq<Batch>)
    ensures Flatten(p + q) == Flatten(p) + Flatten(q)
  {
    if p == [] {
      assert p + q == q;
    } else {
      assert (p + q)[1..] == p[1..] + q;
      FlattenAppend(p[1..], q);
    }
  }

  /** Flattening the first k + 1 batches adds batch k after the first k. */
  lemma FlattenPrefixStep(q: seq<Batch>, k: nat)
    requires k < |q|
    ensures Flatten(q[..k + 1]) == Flatten(q[..k]) + q[k]
  {
    assert q[..k + 1] == q[..k] + [q[k]];
    FlattenAppend(q[..k], [q[k]]);
    assert Flatten([q[k]]) == q[k] + Flatten([]);
  }

  class BatchQueue {
    /** The queued batches, oldest first. */
    var items: seq<Batch>

    constructor ()
      ensures items == []
    {
      items := [];
    }

    /** `push`: appends at the tail; it always succeeds. */
    method Push(b: Batch)
      modifies this
      ensures items == old(items) + [b]
    {
      items := items + [b];
    }

    /** `wait_pop`: takes the head batch. On an empty queue the caller would
        block until a producer pushes; in this sequential model that is the
        outcome `None`, with nothing taken. */
    method WaitPop() returns (b: Option<Batch>)
      modifies this
      ensures old(items) == [] ==> b == None && items == []
      ensures old(items) != [] ==> b == Some(old(items)[0]) && items == old(items)[1..]
    {
      if items == [] {
        b := None;
      } else {
        b := Some(items[0]);
        items := items[1..];
      }
    }
  }
}
