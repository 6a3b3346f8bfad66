/** The message layer, abstracted to a mailbox: one FIFO queue per
    (source, destination, tag) triple.  Messages between the same pair of ranks
    with the same tag are delivered in send order (the non-overtaking rule of
    section 3.5 of the MPI-3.1 standard); the protocol relies on nothing more. */
module Messaging {
  import opened Protocol

  datatype Channel = Channel(source: int, dest: int, tag: int)

  type Queues = map<Channel, seq<Payload>>

  /** The queue of a channel; a channel never used holds nothing. */
  function Get(q: Queues, c: Channel): seq<Payload>
  {
    if c in q then q[c] else []
  }

  /** `q` after appending `p` to channel `c`. */
  function Push(q: Queues, c: Channel, p: Payload): (r: Queues)
    ensures Get(r, c) == Get(q, c) + [p]
    ensures forall d :: d != c ==> Get(r, d) == Get(q, d)
  {
    q[c := Get(q, c) + [p]]
  }

  /** `q` after removing the head of the non-empty channel `c`. */
  function Pop(q: Queues, c: Channel): (r: Queues)
    requires Get(q, c) != []
    ensures Get(r, c) == Get(q, c)[1..]
    ensures forall d :: d != c ==> Get(r, d) == Get(q, d)
  {
    q[c := Get(q, c)[1..]]
  }

  /** Every queued message has the buffer shape of its tag. */
  ghost predicate WellShaped(q: Queues)
  {
    forall c, k :: 0 <= k < |Get(q, c)| ==> Fits(c.tag, Get(q, c)[k])
  }

  /** FIFO: a message pushed behind a non-empty queue does not overtake its head. */
  lemma {:induction false} PushKeepsHead(q: Queues, c: Channel, p: Payload)
    requires Get(q, c) != []
    ensures Get(Push(q, c, p), c)[0] == Get(q, c)[0]
    ensures Pop(Push(q, c, p), c) == Push(Pop(q, c), c, p)
  {
    assert Get(q, c)[1..] + [p] == (Get(q, c) + [p])[1..];
  }

  /** The in-flight messages of the whole run. */
  class Mailbox {
    var queues: Queues

    ghost predicate Valid()
      reads this
    {
      WellShaped(queues)
    }

    constructor ()
      ensures Valid()
      ensures forall c :: Get(queues, c) == []
    {
      queues := map[];
    }

    /** MPI_Send: append `p` to the (source, dest, tag) queue; never blocks. */
    method Send(source: int, dest: int, tag: int, p: Payload)
      requires Valid() && Fits(tag, p)
      modifies this
      ensures Valid()
      ensures queues == Push(old(queues), Channel(source, dest, tag), p)
    {
      queues := Push(queues, Channel(source, dest, tag), p);
    }

    /** MPI_Iprobe: is a message from `source` to `dest` with `tag` pending? */
    method Iprobe(source: int, dest: int, tag: int) returns (flag: bool)
      ensures flag <==> Get(queues, Channel(source, dest, tag)) != []
    {
      flag := Get(queues, Channel(source, dest, tag)) != [];
    }

    /** MPI_Recv, called only once a probe has seen the message: consume the
        head of the (source, dest, tag) queue. */
    method Recv(source: int, dest: int, tag: int) returns (p: Payload)
      requires Valid() && Get(queues, Channel(source, dest, tag)) != []
      modifies this
      ensures Valid()
      ensures p == old(Get(queues, Channel(source, dest, tag)))[0] && Fits(tag, p)
      ensures queues == Pop(old(queues), Channel(source, dest, tag))
    {
      var c := Channel(source, dest, tag);
      p := Get(queues, c)[0];
      assert Fits(c.tag, Get(queues, c)[0]);
      queues := Pop(queues, c);
    }
  }
}
