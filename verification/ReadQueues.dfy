/** The queue of pending read requests (src/read_only.rs), as functions on its value. */
module ReadQueues {
  import opened Quorum

  type Context = nat

  /** The empty context of a heartbeat that carries no read request. */
  const NO_CONTEXT: Context := 0

  datatype Status = Status(index: nat, from: NodeId, acks: set<NodeId>)

  datatype Queue = Queue(queue: seq<Context>, status: map<Context, Status>)

  const EMPTY := Queue([], map[])

  function AddRequest(q: Queue, ctx: Context, index: nat, from: NodeId, self: NodeId): Queue {
    if ctx in q.status then q
    else Queue(q.queue + [ctx], q.status[ctx := Status(index, from, {self})])
  }

  function RecvAck(q: Queue, id: NodeId, ctx: Context): Queue {
    if ctx in q.status then q.(status := q.status[ctx := q.status[ctx].(acks := q.status[ctx].acks + {id})]) else q
  }

  /** The position of the first `ctx`, or the length of the queue. */
  function Position(queue: seq<Context>, ctx: Context): (i: nat)
    ensures i <= |queue|
    ensures i < |queue| ==> queue[i] == ctx
    ensures ctx !in queue[..i]
  {
    if queue == [] || queue[0] == ctx then 0
    else
      var i := Position(queue[1..], ctx);
      assert queue[..1 + i] == [queue[0]] + queue[1..][..i];
      1 + i
  }

  /** What `advance` releases: the queue up to and including `ctx`, nothing if it is not queued. */
  function Released(q: Queue, ctx: Context): seq<Context> {
    var i := Position(q.queue, ctx);
    if i == |q.queue| then [] else q.queue[..i + 1]
  }

  function Advance(q: Queue, ctx: Context): Queue {
    var done := Released(q, ctx);
    Queue(if |done| <= |q.queue| then q.queue[|done|..] else [], q.status - set c | c in done)
  }
}
