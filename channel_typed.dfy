/** The `safety_through_types` channel of chapter 5: one message slot and a
    `ready` flag in an allocation shared by a `Sender` and a `Receiver`.
    `send` and `receive` take their handle by value, so each runs at most
    once; the allocation, and an unreceived message in it, is dropped when
    the last of the two handles is gone. */
module TypedChannelSpec {
  import opened Machine

  const NO_MESSAGE := "no message available!"

  /** The flag and the slot; which handles are live and whether the shared
      allocation is freed; the messages sent, received, and dropped with the
      channel (bookkeeping of the model). */
  datatype Shared<T> = Shared(ready: bool, message: Option<T>,
                              sender: bool, receiver: bool, freed: bool,
                              sent: seq<T>, received: seq<T>, disposed: seq<T>)

  /** The message in the slot, if one is published and unreceived. */
  function Pending<T>(c: Shared<T>): (p: seq<T>)
    ensures |p| <= 1
    ensures p != [] <==> c.ready && c.message.Some?
  {
    if c.ready && c.message.Some? then [c.message.value] else []
  }

  /** At most one message, and it is accounted for exactly once: received,
      dropped with the channel, or still pending. The slot is initialised
      exactly while the flag is set; a live sender has sent nothing; the
      allocation is freed exactly when both handles are gone. */
  ghost predicate Inv<T>(c: Shared<T>) {
    && |c.sent| <= 1
    && c.received + c.disposed + Pending(c) == c.sent
    && (c.ready <==> c.message.Some?)
    && (c.sender ==> c.sent == [] && !c.ready)
    && (c.freed <==> !c.sender && !c.receiver)
    && (c.freed ==> !c.ready)
  }

  /** `channel()`: a fresh allocation shared by both handles. */
  function Channel<T>(): (c: Shared<T>)
    ensures Inv(c) && c.sender && c.receiver && !c.ready && c.sent == []
  {
    Shared(false, None, true, true, false, [], [], [])
  }

  /** `Drop for Channel`, run when the last handle goes: an unreceived
      message is dropped, and the allocation freed. */
  function Free<T>(c: Shared<T>): (d: Shared<T>)
    ensures d.freed && !d.ready && d.message == None
    ensures d.disposed == c.disposed + Pending(c)
    ensures d.sent == c.sent && d.received == c.received
    ensures d.sender == c.sender && d.receiver == c.receiver
  {
    c.(ready := false, message := None, freed := true, disposed := c.disposed + Pending(c))
  }

  /** Drop of a handle's share of the allocation: frees it when no handle
      is left. */
  function ReleaseHandle<T>(c: Shared<T>): (d: Shared<T>)
    ensures !c.sender && !c.receiver ==> d == Free(c)
    ensures c.sender || c.receiver ==> d == c
  {
    if !c.sender && !c.receiver then Free(c) else c
  }

  /** `Sender::send`: write the slot, set the flag, and drop the sender. */
  function Send<T>(c: Shared<T>, m: T): (d: Shared<T>)
    requires c.sender
    ensures !d.sender && d.sent == c.sent + [m] && d.received == c.received
    ensures c.receiver ==> d.ready && d.message == Some(m) && d.freed == c.freed
    ensures Inv(c) && !c.receiver ==> d.freed && d.disposed == c.disposed + [m]
    ensures Inv(c) ==> Inv(d)
  {
    ReleaseHandle(c.(message := Some(m), ready := true, sender := false, sent := c.sent + [m]))
  }

  /** `Receiver::is_ready`: the flag. */
  function IsReady<T>(c: Shared<T>): (r: bool)
    requires c.receiver
    ensures r == c.ready
    ensures Inv(c) ==> (r <==> Pending(c) != [])
  {
    c.ready
  }

  /** `Receiver::receive`: swap the flag to false; if it was not set, panic
      (unwinding drops the receiver); otherwise move the message out. Either
      way the receiver is gone. */
  function Receive<T>(c: Shared<T>): (st: Step<Option<T>, Shared<T>>)
    requires c.receiver
    ensures st.status == Ok <==> c.ready
    ensures st.status != Ok ==> st.status == Panicked(NO_MESSAGE) && st.reply == None
    ensures !st.next.receiver && !st.next.ready && st.next.sent == c.sent
    ensures Inv(c) && st.status == Ok ==>
      && st.reply == Some(c.sent[0]) && st.next.received == c.received + [c.sent[0]]
      && st.next.disposed == c.disposed
    ensures Inv(c) && st.status != Ok ==> st.next.received == c.received
    ensures Inv(c) ==> Inv(st.next)
  {
    if !c.ready then Step(Panicked(NO_MESSAGE), None, ReleaseHandle(c.(receiver := false)))
    else
      var taken := if c.message.Some? then [c.message.value] else [];
      var c1 := c.(ready := false, message := None, receiver := false, received := c.received + taken);
      Step(Ok, c.message, ReleaseHandle(c1))
  }

  /** Dropping a sender that never sent. */
  function DropSender<T>(c: Shared<T>): (d: Shared<T>)
    requires c.sender
    ensures !d.sender && d.sent == c.sent && d.received == c.received
    ensures Inv(c) ==> Inv(d)
  {
    ReleaseHandle(c.(sender := false))
  }

  /** Dropping a receiver that never received. */
  function DropReceiver<T>(c: Shared<T>): (d: Shared<T>)
    requires c.receiver
    ensures !d.receiver && d.sent == c.sent && d.received == c.received
    ensures Inv(c) ==> Inv(d)
  {
    ReleaseHandle(c.(receiver := false))
  }

  datatype Op<T> = Deliver(m: T) | Take | LoseSender | LoseReceiver

  /** One use of a handle; None when the handle is gone or `receive` panics. */
  function Apply<T>(c: Shared<T>, op: Op<T>): (r: Option<Shared<T>>)
    requires Inv(c)
    ensures r.Some? ==> Inv(r.value)
  {
    match op
    case Deliver(m) => if c.sender then Some(Send(c, m)) else None
    case Take => if c.receiver && Receive(c).status == Ok then Some(Receive(c).next) else None
    case LoseSender => if c.sender then Some(DropSender(c)) else None
    case LoseReceiver => if c.receiver then Some(DropReceiver(c)) else None
  }

  function Run<T>(c: Shared<T>, ops: seq<Op<T>>): Shared<T>
    requires Inv(c)
    decreases |ops|
  {
    if ops == [] then c
    else match Apply(c, ops[0])
      case None => c
      case Some(c') => Run(c', ops[1..])
  }

  lemma {:induction false} RunKeepsInv<T>(c: Shared<T>, ops: seq<Op<T>>)
    requires Inv(c)
    ensures Inv(Run(c, ops))
    decreases |ops|
  {
    if ops != [] {
      match Apply(c, ops[0])
      case None =>
      case Some(c') => RunKeepsInv(c', ops[1..]);
    }
  }

  /** From `channel()`, whatever is done with the two handles: at most one
      message is ever sent, and once both handles are gone the allocation is
      freed and the message has been received or dropped, exactly once. */
  lemma ExactlyOnce<T>(ops: seq<Op<T>>)
    ensures var e := Run(Channel(), ops);
      && |e.sent| <= 1
      && (e.freed <==> !e.sender && !e.receiver)
      && (e.freed ==> e.received + e.disposed == e.sent)
  {
    RunKeepsInv(Channel(), ops);
  }

  /** The `test` scenario: send, poll until ready, receive the message; the
      allocation is then freed with nothing left to drop. */
  lemma SendReceive<T>(m: T)
    ensures var s := Send(Channel(), m);
      var r := Receive(s);
      && IsReady(s) && r.reply == Some(m) && r.next.freed && r.next.disposed == []
  {
  }

  /** A receiver dropped before the message arrives: the send frees the
      allocation, dropping the message. */
  lemma ReceiverGoneFirst<T>(m: T)
    ensures var s := Send(DropReceiver(Channel()), m);
      s.freed && s.disposed == [m] && s.received == []
  {
  }
}

/** The shared allocation as an object whose flag, slot and handle count
    are updated in place; the message bookkeeping is ghost. */
module TypedChannel {
  import opened Machine
  import Spec = TypedChannelSpec

  class Channel<T> {
    var ready: bool
    var message: Option<T>
    // which handles still hold their share of the allocation's reference count
    var sender: bool
    var receiver: bool
    var freed: bool
    ghost var sent: seq<T>
    ghost var received: seq<T>
    ghost var disposed: seq<T>

    ghost function Model(): Spec.Shared<T>
      reads this
    {
      Spec.Shared(ready, message, sender, receiver, freed, sent, received, disposed)
    }

    ghost predicate Valid()
      reads this
    {
      Spec.Inv(Model())
    }

    constructor New()
      ensures Model() == Spec.Channel() && Valid()
    {
      ready, message := false, None;
      sender, receiver, freed := true, true, false;
      sent, received, disposed := [], [], [];
    }

    method ReleaseHandle()
      modifies this
      ensures Model() == Spec.ReleaseHandle(old(Model()))
    {
      if !sender && !receiver {
        disposed := disposed + Spec.Pending(Model());
        ready, message := false, None;
        freed := true;
      }
    }

    method Send(m: T)
      requires sender
      modifies this
      ensures Model() == Spec.Send(old(Model()), m)
    {
      message := Some(m);
      ready := true;
      sender := false;
      sent := sent + [m];
      ReleaseHandle();
    }

    method IsReady() returns (r: bool)
      requires receiver
      ensures r == Spec.IsReady(Model())
    {
      r := ready;
    }

    method Receive() returns (status: Status, m: Option<T>)
      requires receiver
      modifies this
      ensures var st := Spec.Receive(old(Model()));
        status == st.status && m == st.reply && Model() == st.next
    {
      var wasReady := ready;
      ready := false;
      receiver := false;
      if !wasReady {
        ReleaseHandle();
        return Panicked(Spec.NO_MESSAGE), None;
      }
      m := message;
      if message.Some? {
        received := received + [message.value];
      }
      message := None;
      ReleaseHandle();
      status := Ok;
    }

    method DropSender()
      requires sender
      modifies this
      ensures Model() == Spec.DropSender(old(Model()))
    {
      sender := false;
      ReleaseHandle();
    }

    method DropReceiver()
      requires receiver
      modifies this
      ensures Model() == Spec.DropReceiver(old(Model()))
    {
      receiver := false;
      ReleaseHandle();
    }
  }
}
