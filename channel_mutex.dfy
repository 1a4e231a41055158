/** The `mutex_based_channel` of chapter 5: a `VecDeque` behind a `Mutex`,
    with a `Condvar` that a receiver waits on while the queue is empty. Each
    operation runs entirely under the lock, so it is one step here; a
    receiver that finds the queue empty blocks until a `send` notifies it. */
module MutexChannelSpec {
  import opened Machine

  /** The queue, and the messages ever sent and ever received (bookkeeping
      of the model). */
  datatype Queue<T> = Queue(items: seq<T>, sent: seq<T>, received: seq<T>)

  /** What is still queued is exactly what was sent and not yet received, in
      sending order. */
  ghost predicate Inv<T>(q: Queue<T>) {
    q.received + q.items == q.sent
  }

  /** `Channel::new`: an empty queue. */
  function New<T>(): (q: Queue<T>)
    ensures Inv(q) && q.items == [] && q.sent == [] && q.received == []
  {
    Queue([], [], [])
  }

  /** `send`: `push_back` under the lock, then `notify_one`. */
  function Send<T>(q: Queue<T>, v: T): (q': Queue<T>)
    ensures q'.items == q.items + [v] && q'.sent == q.sent + [v] && q'.received == q.received
    ensures Inv(q) ==> Inv(q')
  {
    Queue(q.items + [v], q.sent + [v], q.received)
  }

  /** `receive`: `pop_front` under the lock; on an empty queue the receiver
      waits on the condition variable, which blocks in a sequential run. A
      notified receiver tries again, which is `Receive` again. */
  function Receive<T>(q: Queue<T>): (st: Step<Option<T>, Queue<T>>)
    ensures st.status == Ok <==> q.items != []
    ensures st.status == Ok ==>
      && st.reply == Some(q.items[0])
      && st.next == Queue(q.items[1..], q.sent, q.received + [q.items[0]])
    ensures st.status != Ok ==> st.status == Blocked && st.reply == None && st.next == q
    ensures Inv(q) && st.status == Ok ==> st.reply == Some(q.sent[|q.received|])
    ensures Inv(q) ==> Inv(st.next)
  {
    if |q.items| == 0 then Step(Blocked, None, q)
    else
      var v := q.items[0];
      assert q.items == [v] + q.items[1..];
      assert (q.received + q.items)[|q.received|] == v;
      Step(Ok, Some(v), Queue(q.items[1..], q.sent, q.received + [v]))
  }

  datatype Op<T> = Push(v: T) | Pop

  function Apply<T>(q: Queue<T>, op: Op<T>): (r: Option<Queue<T>>)
    requires Inv(q)
    ensures r.Some? ==> Inv(r.value)
  {
    match op
    case Push(v) => Some(Send(q, v))
    case Pop => if Receive(q).status == Ok then Some(Receive(q).next) else None
  }

  /** Operations in order, until a receive would block. */
  function Run<T>(q: Queue<T>, ops: seq<Op<T>>): Queue<T>
    requires Inv(q)
    decreases |ops|
  {
    if ops == [] then q
    else match Apply(q, ops[0])
      case None => q
      case Some(q') => Run(q', ops[1..])
  }

  lemma {:induction false} RunKeepsInv<T>(q: Queue<T>, ops: seq<Op<T>>)
    requires Inv(q)
    ensures Inv(Run(q, ops))
    decreases |ops|
  {
    if ops != [] {
      match Apply(q, ops[0])
      case None =>
      case Some(q') => RunKeepsInv(q', ops[1..]);
    }
  }

  /** First in, first out: from a new channel, whatever was done, the
      messages received are a prefix of those sent, in sending order, and
      the queue holds exactly the rest. */
  lemma Fifo<T>(ops: seq<Op<T>>)
    ensures var e := Run(New(), ops);
      && |e.received| <= |e.sent|
      && e.sent[..|e.received|] == e.received
      && e.items == e.sent[|e.received|..]
  {
    RunKeepsInv(New(), ops);
    var e := Run(New<T>(), ops);
    assert e.sent == e.received + e.items;
  }

  /** Two sends and three receives: the messages come out in order, and the
      third receive waits. */
  lemma TwoMessagesInOrder<T>(a: T, b: T)
    ensures var q := Send(Send(New(), a), b);
      var r1 := Receive(q);
      var r2 := Receive(r1.next);
      var r3 := Receive(r2.next);
      && r1.reply == Some(a) && r2.reply == Some(b) && r3.status == Blocked
      && r3.next.received == [a, b]
  {
  }
}

/** The channel as an object whose queue the operations update in place. */
module MutexChannel {
  import opened Machine
  import Spec = MutexChannelSpec

  class Channel<T> {
    var queue: seq<T>
    ghost var sent: seq<T>
    ghost var received: seq<T>

    ghost function Model(): Spec.Queue<T>
      reads this
    {
      Spec.Queue(queue, sent, received)
    }

    ghost predicate Valid()
      reads this
    {
      Spec.Inv(Model())
    }

    constructor New()
      ensures Model() == Spec.New() && Valid()
    {
      queue, sent, received := [], [], [];
    }

    method Send(v: T)
      modifies this
      ensures Model() == Spec.Send(old(Model()), v)
    {
      queue := queue + [v];
      sent := sent + [v];
    }

    method Receive() returns (status: Status, message: Option<T>)
      modifies this
      ensures var st := Spec.Receive(old(Model()));
        status == st.status && message == st.reply && Model() == st.next
    {
      if |queue| == 0 {
        return Blocked, None;
      }
      var v := queue[0];
      queue := queue[1..];
      received := received + [v];
      status, message := Ok, Some(v);
    }
  }
}
