/** The `borrowing_to_avoid_allocation` channel of chapter 5: the caller owns
    the channel (a slot and a `ready` flag) and `split` lends it to a
    `Sender` and a `Receiver` for as long as the mutable borrow lasts. A
    receiver parks until the flag is set. A later `split` resets the channel
    in place, dropping a message the previous pair left unreceived. */
module BorrowChannelSpec {
  import opened Machine

  /** The flag and the slot; which borrowed handles are live; the messages
      ever sent, received, and dropped (bookkeeping of the model). */
  datatype Slot<T> = Slot(ready: bool, message: Option<T>, sender: bool, receiver: bool,
                          sent: seq<T>, received: seq<T>, disposed: seq<T>)

  /** The message in the slot, if one is published and unreceived. */
  function Pending<T>(c: Slot<T>): (p: seq<T>)
    ensures |p| <= 1
    ensures p != [] <==> c.ready && c.message.Some?
  {
    if c.ready && c.message.Some? then [c.message.value] else []
  }

  /** Across all the splits, every message sent is accounted for exactly
      once: received, dropped, or still pending in the slot. The slot is
      initialised exactly while the flag is set, and a live sender finds the
      flag clear. */
  ghost predicate Inv<T>(c: Slot<T>) {
    && (c.ready <==> c.message.Some?)
    && (c.sender ==> !c.ready)
    && multiset(c.received) + multiset(c.disposed) + multiset(Pending(c)) == multiset(c.sent)
  }

  /** `Channel::new`: flag clear, slot uninitialised, nothing lent out. */
  function New<T>(): (c: Slot<T>)
    ensures Inv(c) && !c.ready && !c.sender && !c.receiver && c.sent == []
  {
    Slot(false, None, false, false, [], [], [])
  }

  /** `split`: once no handle of an earlier split is live, the channel is
      replaced by a new one (the old one's unreceived message is dropped) and
      lent to a fresh sender and receiver. */
  function Split<T>(c: Slot<T>): (d: Slot<T>)
    requires !c.sender && !c.receiver
    ensures d.sender && d.receiver && !d.ready && d.message == None
    ensures d.sent == c.sent && d.received == c.received
    ensures d.disposed == c.disposed + Pending(c)
    ensures Inv(c) ==> Inv(d)
  {
    Slot(false, None, true, true, c.sent, c.received, c.disposed + Pending(c))
  }

  /** `Sender::send`: write the slot, set the flag, unpark the receiver; the
      sender is consumed. */
  function Send<T>(c: Slot<T>, m: T): (d: Slot<T>)
    requires c.sender
    ensures d == c.(message := Some(m), ready := true, sender := false, sent := c.sent + [m])
    ensures Inv(c) ==> Inv(d) && Pending(d) == [m]
  {
    c.(message := Some(m), ready := true, sender := false, sent := c.sent + [m])
  }

  /** `Receiver::is_ready`: the flag. */
  function IsReady<T>(c: Slot<T>): (r: bool)
    requires c.receiver
    ensures r == c.ready
    ensures Inv(c) ==> (r <==> Pending(c) != [])
  {
    c.ready
  }

  /** `Receiver::receive`: swap the flag to false; while it was not set the
      receiver parks, which blocks in a sequential run (an unpark makes it
      swap again, which is `Receive` again); otherwise move the message out.
      The receiver is consumed once it returns. */
  function Receive<T>(c: Slot<T>): (st: Step<Option<T>, Slot<T>>)
    requires c.receiver
    ensures st.status == Ok <==> c.ready
    ensures st.status != Ok ==> st.status == Blocked && st.reply == None && st.next == c
    ensures st.status == Ok ==>
      && st.reply == c.message
      && st.next == c.(ready := false, message := None, receiver := false,
                       received := c.received + Pending(c))
    ensures Inv(c) && st.status == Ok ==> st.reply.Some? && st.next.received == c.received + [st.reply.value]
    ensures Inv(c) ==> Inv(st.next)
  {
    if !c.ready then Step(Blocked, None, c)
    else
      var taken := Pending(c);
      Step(Ok, c.message,
           c.(ready := false, message := None, receiver := false, received := c.received + taken))
  }

  /** The end of a sender's borrow without a send. */
  function DropSender<T>(c: Slot<T>): (d: Slot<T>)
    requires c.sender
    ensures d == c.(sender := false)
    ensures Inv(c) ==> Inv(d)
  {
    c.(sender := false)
  }

  /** The end of a receiver's borrow without a receive. */
  function DropReceiver<T>(c: Slot<T>): (d: Slot<T>)
    requires c.receiver
    ensures d == c.(receiver := false)
    ensures Inv(c) ==> Inv(d)
  {
    c.(receiver := false)
  }

  /** `Drop for Channel`: an unreceived message is dropped. The borrows end
      first, so no handle is live. */
  function Drop<T>(c: Slot<T>): (d: Slot<T>)
    requires !c.sender && !c.receiver
    ensures !d.ready && d.message == None && d.sent == c.sent && d.received == c.received
    ensures d.disposed == c.disposed + Pending(c)
    ensures Inv(c) ==> multiset(d.received) + multiset(d.disposed) == multiset(d.sent)
  {
    c.(ready := false, message := None, disposed := c.disposed + Pending(c))
  }

  datatype Op<T> = Lend | Deliver(m: T) | Take | LoseSender | LoseReceiver

  /** One step of the owner or of a handle; None when it would block, or the
      borrow rules forbid it (a split while a handle lives, a used handle). */
  function Apply<T>(c: Slot<T>, op: Op<T>): (r: Option<Slot<T>>)
    requires Inv(c)
    ensures r.Some? ==> Inv(r.value)
  {
    match op
    case Lend => if !c.sender && !c.receiver then Some(Split(c)) else None
    case Deliver(m) => if c.sender then Some(Send(c, m)) else None
    case Take => if c.receiver && Receive(c).status == Ok then Some(Receive(c).next) else None
    case LoseSender => if c.sender then Some(DropSender(c)) else None
    case LoseReceiver => if c.receiver then Some(DropReceiver(c)) else None
  }

  function Run<T>(c: Slot<T>, ops: seq<Op<T>>): Slot<T>
    requires Inv(c)
    decreases |ops|
  {
    if ops == [] then c
    else match Apply(c, ops[0])
      case None => c
      case Some(c') => Run(c', ops[1..])
  }

  lemma {:induction false} RunKeepsInv<T>(c: Slot<T>, ops: seq<Op<T>>)
    requires Inv(c)
    ensures Inv(Run(c, ops))
    decreases |ops|
  {
    if ops != [] {
      match Apply(c, ops[0])
      case None =>
      case Some(c') => RunKeepsInv(c', ops[1..]);
    }
  }

  /** From `Channel::new`, over any number of splits: when the channel is
      dropped, every message ever sent has been received or dropped, exactly
      once. */
  lemma ExactlyOnce<T>(ops: seq<Op<T>>)
    ensures var e := Run(New(), ops);
      !e.sender && !e.receiver ==>
        var d := Drop(e);
        multiset(d.received) + multiset(d.disposed) == multiset(d.sent)
  {
    RunKeepsInv(New(), ops);
  }

  /** The `test` scenario: after a split the receiver parks until the sender
      has sent, and then receives the message. */
  lemma ParkUntilSent<T>(m: T)
    ensures var s := Split(New<T>());
      var early := Receive(s);
      var late := Receive(Send(s, m));
      && early.status == Blocked && late.status == Ok && late.reply == Some(m)
      && Drop(late.next).disposed == []
  {
  }

  /** A split after a pair that sent but never received resets the channel
      in place: the old message is dropped and the new pair starts empty. */
  lemma SplitDropsUnreceived<T>(m: T)
    ensures var first := Send(Split(New<T>()), m);
      var second := Split(DropReceiver(first));
      && second.disposed == [m] && !second.ready && second.sender && second.receiver
      && IsReady(second) == false
  {
  }
}

/** The channel as an object the owner resets and the handles update in
    place; which handles are lent out is ghost, as the borrow checker tracks
    it at compile time. */
module BorrowChannel {
  import opened Machine
  import Spec = BorrowChannelSpec

  class Channel<T> {
    var ready: bool
    var message: Option<T>
    ghost var sender: bool
    ghost var receiver: bool
    ghost var sent: seq<T>
    ghost var received: seq<T>
    ghost var disposed: seq<T>

    ghost function Model(): Spec.Slot<T>
      reads this
    {
      Spec.Slot(ready, message, sender, receiver, sent, received, disposed)
    }

    ghost predicate Valid()
      reads this
    {
      Spec.Inv(Model())
    }

    constructor New()
      ensures Model() == Spec.New() && Valid()
    {
      ready, message := false, None;
      sender, receiver := false, false;
      sent, received, disposed := [], [], [];
    }

    method Split()
      requires !sender && !receiver
      modifies this
      ensures Model() == Spec.Split(old(Model()))
    {
      disposed := disposed + Spec.Pending(Model());
      ready, message := false, None;
      sender, receiver := true, true;
    }

    method Send(m: T)
      requires sender
      modifies this
      ensures Model() == Spec.Send(old(Model()), m)
    {
      message := Some(m);
      ready := true;
      sender := false;
      sent := sent + [m];
    }

    method IsReady() returns (r: bool)
      requires receiver
      ensures r == Spec.IsReady(Model())
    {
      r := ready;
    }

    method Receive() returns (status: Status, m: Option<T>)
      requires receiver
      modifies this
      ensures var st := Spec.Receive(old(Model()));
        status == st.status && m == st.reply && Model() == st.next
    {
      var wasReady := ready;
      ready := false;
      if !wasReady {
        return Blocked, None;
      }
      received := received + Spec.Pending(old(Model()));
      m := message;
      message := None;
      receiver := false;
      status := Ok;
    }

    method DropSender()
      requires sender
      modifies this
      ensures Model() == Spec.DropSender(old(Model()))
    {
      sender := false;
    }

    method DropReceiver()
      requires receiver
      modifies this
      ensures Model() == Spec.DropReceiver(old(Model()))
    {
      receiver := false;
    }

    method Drop()
      requires !sender && !receiver
      modifies this
      ensures Model() == Spec.Drop(old(Model()))
    {
      disposed := disposed + Spec.Pending(Model());
      ready, message := false, None;
    }
  }
}
