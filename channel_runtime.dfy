/** The `safety_through_runtime_checks` channel of chapter 5: one message
    slot and a `u8` state word that moves EMPTY, WRITING, READY, READING.
    A second `send` and a `receive` with no message ready panic. `send` is
    split into its two atomic steps, the claim (EMPTY to WRITING) and the
    publish (write the slot, store READY), so that a reader running in
    between can be modelled. */
module RuntimeChannelSpec {
  import opened Machine

  const EMPTY: nat := 0
  const WRITING: nat := 1
  const READY: nat := 2
  const READING: nat := 3

  const SEND_TWICE := "can't send more than one message!"
  const NO_MESSAGE := "no message available!"

  /** The state word and the slot, plus the messages sent, received, and
      dropped with the channel (bookkeeping of the model). */
  datatype Slot<T> = Slot(state: nat, message: Option<T>, sent: seq<T>, received: seq<T>,
                          disposed: seq<T>)

  /** The slot is initialised exactly in state READY; before READY nothing was
      sent; in READY the one message sent sits in the slot; in READING it has
      been handed to the receiver. */
  ghost predicate Inv<T>(c: Slot<T>) {
    && c.state <= READING
    && (c.message.Some? <==> c.state == READY)
    && ((c.state == EMPTY || c.state == WRITING) ==> c.sent == [] && c.received == [])
    && (c.state == READY ==> c.sent == [c.message.value] && c.received == [])
    && (c.state == READING ==> |c.sent| == 1 && c.received == c.sent)
    && c.disposed == []
  }

  /** `Channel::new`: state EMPTY, slot uninitialised. */
  function New<T>(): (c: Slot<T>)
    ensures Inv(c) && c.state == EMPTY && c.message == None && c.sent == []
  {
    Slot(EMPTY, None, [], [], [])
  }

  /** The first step of `send`: the compare-exchange from EMPTY to WRITING;
      any other state panics. */
  function ClaimSend<T>(c: Slot<T>): (st: Step<(), Slot<T>>)
    ensures st.status == Ok <==> c.state == EMPTY
    ensures st.status == Ok ==> st.next == c.(state := WRITING)
    ensures st.status != Ok ==> st.status == Panicked(SEND_TWICE) && st.next == c
    ensures Inv(c) ==> Inv(st.next)
  {
    if c.state == EMPTY then Step(Ok, (), c.(state := WRITING))
    else Step(Panicked(SEND_TWICE), (), c)
  }

  /** The second step of `send`: write the slot, then store READY. */
  function Publish<T>(c: Slot<T>, m: T): (c': Slot<T>)
    requires c.state == WRITING
    ensures c' == c.(state := READY, message := Some(m), sent := c.sent + [m])
    ensures Inv(c) ==> Inv(c') && c'.sent == [m]
  {
    c.(state := READY, message := Some(m), sent := c.sent + [m])
  }

  /** `send`: the claim, then, if it succeeded, the publish. */
  function Send<T>(c: Slot<T>, m: T): (st: Step<(), Slot<T>>)
    ensures st.status == Ok <==> c.state == EMPTY
    ensures st.status == Ok ==> st.next == c.(state := READY, message := Some(m), sent := c.sent + [m])
    ensures st.status != Ok ==> st.status == Panicked(SEND_TWICE) && st.next == c
    ensures Inv(c) ==> Inv(st.next)
  {
    var claim := ClaimSend(c);
    if claim.status != Ok then claim
    else Step(Ok, (), Publish(claim.next, m))
  }

  /** `is_ready`: whether the state is READY. */
  function IsReady<T>(c: Slot<T>): (r: bool)
    ensures r <==> c.state == READY
    ensures Inv(c) ==> (r <==> c.message.Some? && c.received == [] && c.sent != [])
  {
    c.state == READY
  }

  /** `receive`: the compare-exchange from READY to READING, then move the
      message out of the slot; any other state panics. */
  function Receive<T>(c: Slot<T>): (st: Step<Option<T>, Slot<T>>)
    ensures st.status == Ok <==> c.state == READY
    ensures st.status == Ok ==>
      && st.reply == c.message
      && st.next.state == READING && st.next.message == None
      && st.next.sent == c.sent && st.next.disposed == c.disposed
    ensures st.status != Ok ==> st.status == Panicked(NO_MESSAGE) && st.reply == None && st.next == c
    ensures Inv(c) && st.status == Ok ==> st.reply == Some(c.sent[0]) && st.next.received == c.sent
    ensures Inv(c) ==> Inv(st.next)
  {
    if c.state == READY && c.message.Some? then
      var m := c.message.value;
      Step(Ok, Some(m), c.(state := READING, message := None, received := c.received + [m]))
    else if c.state == READY then Step(Ok, None, c.(state := READING))
    else Step(Panicked(NO_MESSAGE), None, c)
  }

  /** `Drop for Channel`: if the state is READY, the message nobody
      received is dropped with the channel. */
  function Dispose<T>(c: Slot<T>): (d: Slot<T>)
    ensures d.state == c.state && d.sent == c.sent && d.received == c.received
    ensures Inv(c) ==> d.message == None && (d.disposed != [] <==> c.state == READY)
    ensures Inv(c) ==> d.received + d.disposed == d.sent
  {
    if c.state == READY && c.message.Some? then c.(message := None, disposed := [c.message.value])
    else c
  }

  datatype Op<T> = StartSend | FinishSend(m: T) | Take

  /** One step by a thread; None when it panics or is not its turn. */
  function Apply<T>(c: Slot<T>, op: Op<T>): (r: Option<Slot<T>>)
    requires Inv(c)
    ensures r.Some? ==> Inv(r.value)
  {
    match op
    case StartSend => if ClaimSend(c).status == Ok then Some(ClaimSend(c).next) else None
    case FinishSend(m) => if c.state == WRITING then Some(Publish(c, m)) else None
    case Take => if Receive(c).status == Ok then Some(Receive(c).next) else None
  }

  function Run<T>(c: Slot<T>, ops: seq<Op<T>>): Slot<T>
    requires Inv(c)
    decreases |ops|
  {
    if ops == [] then c
    else match Apply(c, ops[0])
      case None => c
      case Some(c') => Run(c', ops[1..])
  }

  lemma {:induction false} RunKeepsInv<T>(c: Slot<T>, ops: seq<Op<T>>)
    requires Inv(c)
    ensures Inv(Run(c, ops))
    decreases |ops|
  {
    if ops != [] {
      match Apply(c, ops[0])
      case None =>
      case Some(c') => RunKeepsInv(c', ops[1..]);
    }
  }

  /** From `Channel::new`, whatever the steps, at most one message is ever
      sent, and when the channel is dropped every message sent has been
      either received or dropped with it, exactly once. */
  lemma ExactlyOnce<T>(ops: seq<Op<T>>)
    ensures var e := Run(New(), ops);
      var d := Dispose(e);
      && |e.sent| <= 1
      && d.received + d.disposed == d.sent
      && |d.received| + |d.disposed| == |d.sent|
  {
    RunKeepsInv(New(), ops);
  }

  /** A receive that runs between the two steps of a send sees no message:
      `is_ready` is false and `receive` panics. */
  lemma ReceiveDuringWrite<T>(m: T)
    ensures var w := ClaimSend(New<T>()).next;
      && !IsReady(w) && Receive(w).status == Panicked(NO_MESSAGE)
      && Receive(Publish(w, m)).reply == Some(m)
  {
  }

  /** The `test` scenario: send, poll until ready, receive the message; a
      second send panics; the channel then drops nothing. */
  lemma SendReceive<T>(m: T)
    ensures var s := Send(New(), m);
      var r := Receive(s.next);
      && IsReady(s.next) && r.reply == Some(m)
      && Send(r.next, m).status == Panicked(SEND_TWICE)
      && Receive(r.next).status == Panicked(NO_MESSAGE)
      && Dispose(r.next).disposed == []
  {
  }

  /** A message sent but never received is dropped with the channel. */
  lemma UnreceivedIsDropped<T>(m: T)
    ensures Dispose(Send(New(), m).next).disposed == [m]
  {
  }
}

/** The channel as an object whose state word and slot are updated in place. */
module RuntimeChannel {
  import opened Machine
  import Spec = RuntimeChannelSpec

  class Channel<T> {
    var state: nat
    var message: Option<T>
    ghost var sent: seq<T>
    ghost var received: seq<T>
    ghost var disposed: seq<T>

    ghost function Model(): Spec.Slot<T>
      reads this
    {
      Spec.Slot(state, message, sent, received, disposed)
    }

    ghost predicate Valid()
      reads this
    {
      Spec.Inv(Model())
    }

    constructor New()
      ensures Model() == Spec.New() && Valid()
    {
      state, message := Spec.EMPTY, None;
      sent, received, disposed := [], [], [];
    }

    method Send(m: T) returns (status: Status)
      modifies this
      ensures var st := Spec.Send(old(Model()), m); status == st.status && Model() == st.next
    {
      if state != Spec.EMPTY {
        return Panicked(Spec.SEND_TWICE);
      }
      state := Spec.WRITING;
      message := Some(m);
      sent := sent + [m];
      state := Spec.READY;
      status := Ok;
    }

    method IsReady() returns (r: bool)
      ensures r == Spec.IsReady(Model())
    {
      r := state == Spec.READY;
    }

    method Receive() returns (status: Status, m: Option<T>)
      modifies this
      ensures var st := Spec.Receive(old(Model()));
        status == st.status && m == st.reply && Model() == st.next
    {
      if state != Spec.READY {
        return Panicked(Spec.NO_MESSAGE), None;
      }
      state := Spec.READING;
      m := message;
      if message.Some? {
        received := received + [message.value];
      }
      message := None;
      status := Ok;
    }

    method Drop()
      requires Valid()
      modifies this
      ensures Model() == Spec.Dispose(old(Model()))
    {
      if state == Spec.READY {
        disposed := [message.value];
        message := None;
      }
    }
  }
}
