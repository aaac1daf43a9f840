/** The read request queue as an object (src/read_only.rs), proved against the functions the cluster
    proof uses. */
module ReadOnlyObject {
  import opened Options
  import opened Quorum
  import R = ReadQueues

  class ReadOnly {
    var pending: map<R.Context, R.Status>
    var queue: seq<R.Context>

    function Value(): R.Queue
      reads this
    {
      R.Queue(queue, pending)
    }

    /** Every queued request is pending, and only once in the queue. */
    ghost predicate Valid()
      reads this
    {
      Matched(Value())
    }

    constructor ()
      ensures Value() == R.EMPTY && Valid()
    {
      pending, queue := map[], [];
    }

    method AddRequest(index: nat, ctx: R.Context, from: NodeId, self: NodeId)
      requires Valid()
      modifies this
      ensures Valid() && Value() == R.AddRequest(old(Value()), ctx, index, from, self)
    {
      if ctx in pending {
        return;
      }
      pending := pending[ctx := R.Status(index, from, {self})];
      queue := queue + [ctx];
      assert forall i | 0 <= i < |queue| - 1 :: queue[i] == old(queue)[i];
      assert queue[|queue| - 1] == ctx;
      assert forall c | c in old(queue) :: c in queue;
    }

    /** The acknowledgments of the request so far, if it is pending. */
    method RecvAck(id: NodeId, ctx: R.Context) returns (acks: Option<set<NodeId>>)
      requires Valid()
      modifies this`pending
      ensures Valid() && Value() == R.RecvAck(old(Value()), id, ctx)
      ensures acks == if ctx in old(pending) then Some(old(pending)[ctx].acks + {id}) else None
    {
      if ctx !in pending {
        return None;
      }
      pending := pending[ctx := pending[ctx].(acks := pending[ctx].acks + {id})];
      return Some(pending[ctx].acks);
    }

    /** The place of `ctx` in the queue, or its length. */
    method PositionOf(ctx: R.Context) returns (at: nat)
      ensures at == R.Position(queue, ctx)
    {
      at := 0;
      while at < |queue| && queue[at] != ctx
        invariant 0 <= at <= |queue| && forall i | 0 <= i < at :: queue[i] != ctx
      {
        at := at + 1;
      }
      PositionIs(queue, ctx, at);
    }

    /** Takes the first `k` requests out of the queue and the map. */
    method PopFront(k: nat) returns (statuses: seq<R.Status>)
      requires Valid() && k <= |queue|
      modifies this
      ensures Valid() && Value() == Dropped(old(Value()), k)
      ensures |statuses| == k && forall i | 0 <= i < k :: statuses[i] == old(pending)[old(queue)[i]]
    {
      hide Dropped;
      ghost var q := Value();
      statuses := [];
      DroppedNone(q);
      for i := 0 to k
        invariant Value() == Dropped(q, i) && |statuses| == i
        invariant forall x | 0 <= x < i :: statuses[x] == q.status[q.queue[x]]
      {
        DroppedNext(q, i);
        var c := queue[0];
        queue := queue[1..];
        statuses := statuses + [pending[c]];
        pending := pending - {c};
      }
      DroppedValid(q, k);
    }

    /** Releases the queue up to and including `ctx`, in order; nothing if it is not queued. */
    method Advance(ctx: R.Context) returns (statuses: seq<R.Status>)
      requires Valid()
      modifies this
      ensures Valid() && Value() == R.Advance(old(Value()), ctx)
      ensures var done := R.Released(old(Value()), ctx);
              |statuses| == |done| && forall i | 0 <= i < |done| :: done[i] in old(pending) && statuses[i] == old(pending)[done[i]]
    {
      hide Dropped, R.Position;
      var at := PositionOf(ctx);
      AdvanceIs(Value(), ctx);
      statuses := PopFront(if at == |queue| then 0 else at + 1);
    }
  }

  lemma {:induction false} PositionIs(queue: seq<R.Context>, ctx: R.Context, at: nat)
    requires at <= |queue| && (forall i | 0 <= i < at :: queue[i] != ctx) && (at < |queue| ==> queue[at] == ctx)
    ensures R.Position(queue, ctx) == at
  {
    if at > 0 {
      assert forall i | 1 <= i < |queue| :: queue[1..][i - 1] == queue[i];
      PositionIs(queue[1..], ctx, at - 1);
    }
  }

  /** The queue and the map without the first `k` requests. */
  function Dropped(q: R.Queue, k: nat): R.Queue
    requires k <= |q.queue|
  {
    R.Queue(q.queue[k..], q.status - set c | c in q.queue[..k])
  }

  ghost predicate Matched(q: R.Queue) {
    && (forall i | 0 <= i < |q.queue| :: q.queue[i] in q.status)
    && (forall i, j | 0 <= i < j < |q.queue| :: q.queue[i] != q.queue[j])
    && (forall c | c in q.status :: c in q.queue)
  }

  /** `advance` drops the queue up to and including the context. */
  lemma AdvanceIs(q: R.Queue, ctx: R.Context)
    requires Matched(q)
    ensures var at := R.Position(q.queue, ctx);
            var k := if at == |q.queue| then 0 else at + 1;
            && R.Advance(q, ctx) == Dropped(q, k) && R.Released(q, ctx) == q.queue[..k]
            && forall i | 0 <= i < k :: q.queue[i] in q.status
  {
    hide R.Position;
    assert q.queue[..0] == [];
  }

  lemma DroppedNone(q: R.Queue)
    ensures Dropped(q, 0) == q
  {
    assert (set c | c in q.queue[..0]) == {};
  }

  lemma DroppedNext(q: R.Queue, k: nat)
    requires Matched(q) && k < |q.queue|
    ensures var d := Dropped(q, k);
            && d.queue != [] && d.queue[0] == q.queue[k] && q.queue[k] in d.status && d.status[q.queue[k]] == q.status[q.queue[k]]
            && Dropped(q, k + 1) == R.Queue(d.queue[1..], d.status - {q.queue[k]})
  {
    assert q.queue[..k + 1] == q.queue[..k] + [q.queue[k]];
    assert q.queue[k] !in q.queue[..k];
  }

  lemma DroppedValid(q: R.Queue, k: nat)
    requires Matched(q) && k <= |q.queue|
    ensures Matched(Dropped(q, k))
  {
    assert q.queue == q.queue[..k] + q.queue[k..];
    assert forall i | 0 <= i < |q.queue[k..]| :: q.queue[k..][i] == q.queue[k + i];
  }
}
