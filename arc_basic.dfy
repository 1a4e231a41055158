/** The `basic` Arc: one allocation with a single `ref_count` and the payload;
    the drop that takes the count from 1 to 0 frees the allocation together
    with the payload. There is no Weak. */
module ArcBasicSpec {
  import opened Machine

  /** One allocation; `arcs` counts the live Arc handles (bookkeeping of the
      model). `data` is None once the allocation, payload included, is freed. */
  datatype Cell<T> = Cell(refCount: nat, data: Option<T>, drops: nat, freed: bool, arcs: nat)

  /** `ref_count` is the number of Arcs; payload and allocation live exactly
      while it is positive and are dropped exactly once after. */
  predicate Inv<T>(c: Cell<T>) {
    && c.refCount == c.arcs
    && (c.data.Some? <==> c.refCount > 0)
    && (c.freed <==> c.refCount == 0)
    && c.drops == (if c.refCount > 0 then 0 else 1)
    && c.refCount <= USIZE_HALF + 1
  }

  /** `Arc::new`: count 1. */
  function New<T>(v: T): (c: Cell<T>)
    ensures Inv(c) && c.data == Some(v) && c.arcs == 1
  {
    Cell(1, Some(v), 0, false, 1)
  }

  /** `Clone for Arc`: `fetch_add(1)`, abort if the previous count exceeded
      `usize::MAX / 2`. */
  function CloneArc<T>(c: Cell<T>): (st: Step<(), Cell<T>>)
    requires c.arcs > 0
    ensures st.status == Ok <==> c.refCount <= USIZE_HALF
    ensures st.status != Ok ==> st.status == Aborted
    ensures st.status == Ok ==> st.next == c.(refCount := c.refCount + 1, arcs := c.arcs + 1)
    ensures Inv(c) && st.status == Ok ==> Inv(st.next)
  {
    var prev := c.refCount;
    if prev > USIZE_HALF then Step(Aborted, (), c.(refCount := UsizeAdd(prev, 1)))
    else Step(Ok, (), c.(refCount := prev + 1, arcs := c.arcs + 1))
  }

  /** `Drop for Arc`: `fetch_sub(1)`; the step from 1 to 0 drops the boxed
      allocation and the payload in it. The reply says whether this drop did. */
  function DropArc<T>(c: Cell<T>): (st: Step<bool, Cell<T>>)
    requires c.arcs > 0 && c.refCount <= USIZE_MAX
    ensures st.status == Ok && (st.reply <==> c.refCount == 1)
    ensures st.reply ==> st.next.freed && st.next.drops == c.drops + 1 && st.next.data == None
    ensures !st.reply ==> st.next.freed == c.freed && st.next.drops == c.drops && st.next.data == c.data
    ensures Inv(c) ==> Inv(st.next) && st.next.arcs == c.arcs - 1 && (st.reply <==> c.arcs == 1)
  {
    var prev := c.refCount;
    var c1 := c.(refCount := UsizeDec(prev), arcs := c.arcs - 1);
    if prev == 1 then Step(Ok, true, c1.(data := None, drops := c.drops + 1, freed := true))
    else Step(Ok, false, c1)
  }

  /** `Arc::get_mut`: the payload, mutably, when `ref_count` is 1. */
  function GetMut<T>(c: Cell<T>): (st: Step<Option<T>, Cell<T>>)
    requires c.arcs > 0
    ensures st.status == Ok && st.next == c
    ensures st.reply.Some? ==> c.refCount == 1 && st.reply == c.data
    ensures Inv(c) ==> (st.reply.Some? <==> c.arcs == 1)
  {
    Step(Ok, if c.refCount == 1 then c.data else None, c)
  }

  /** `Deref for Arc`: the payload, which a live Arc keeps alive. */
  function Deref<T>(c: Cell<T>): (v: T)
    requires Inv(c) && c.arcs > 0
    ensures c.data == Some(v)
  {
    c.data.value
  }

  datatype Op = ArcClone | ArcDrop | ArcGetMut

  function Apply<T>(c: Cell<T>, op: Op): (r: Option<Cell<T>>)
    requires Inv(c)
    ensures r.Some? ==> Inv(r.value)
  {
    match op
    case ArcClone =>
      if c.arcs > 0 && CloneArc(c).status == Ok then Some(CloneArc(c).next) else None
    case ArcDrop => if c.arcs > 0 then Some(DropArc(c).next) else None
    case ArcGetMut => if c.arcs > 0 then Some(GetMut(c).next) else None
  }

  /** A single-threaded run: operations in order, until one cannot be applied. */
  function Run<T>(c: Cell<T>, ops: seq<Op>): Cell<T>
    requires Inv(c)
    decreases |ops|
  {
    if ops == [] then c
    else match Apply(c, ops[0])
      case None => c
      case Some(c') => Run(c', ops[1..])
  }

  lemma {:induction false} RunKeepsInv<T>(c: Cell<T>, ops: seq<Op>)
    requires Inv(c)
    ensures Inv(Run(c, ops))
    decreases |ops|
  {
    if ops != [] {
      match Apply(c, ops[0])
      case None =>
      case Some(c') => RunKeepsInv(c', ops[1..]);
    }
  }

  /** From `Arc::new`, whatever the operations: the payload is dropped at most
      once, exactly when no Arc is left, and the allocation is freed then. */
  lemma Lifecycle<T>(v: T, ops: seq<Op>)
    ensures var e := Run(New(v), ops);
      && e.drops <= 1
      && (e.drops == 1 <==> e.arcs == 0)
      && (e.freed <==> e.arcs == 0)
  {
    RunKeepsInv(New(v), ops);
  }

  /** The `test` scenario: clone, drop one, drop the other; the payload is
      dropped by the second drop and not before. */
  lemma CloneThenDropBoth<T>(v: T)
    ensures var y := CloneArc(New(v)).next;
      var afterX := DropArc(y);
      var afterY := DropArc(afterX.next);
      && !afterX.reply && afterX.next.drops == 0
      && afterY.reply && afterY.next.drops == 1 && afterY.next.freed
  {
  }
}

/** The allocation of the `basic` module as an object whose count the
    operations update in place. */
module ArcBasic {
  import opened Machine
  import Spec = ArcBasicSpec

  class ArcData<T> {
    var refCount: nat
    var data: Option<T>
    var drops: nat
    var freed: bool
    ghost var arcs: nat

    ghost function Model(): Spec.Cell<T>
      reads this
    {
      Spec.Cell(refCount, data, drops, freed, arcs)
    }

    ghost predicate Valid()
      reads this
    {
      Spec.Inv(Model())
    }

    constructor New(v: T)
      ensures Model() == Spec.New(v) && Valid()
    {
      refCount := 1;
      data := Some(v);
      drops, freed := 0, false;
      arcs := 1;
    }

    method CloneArc() returns (status: Status)
      requires Valid() && arcs > 0
      modifies this
      ensures var st := Spec.CloneArc(old(Model())); status == st.status && Model() == st.next
      ensures status == Ok ==> Valid()
    {
      var prev := refCount;
      refCount := UsizeAdd(prev, 1);
      if prev > USIZE_HALF {
        status := Aborted;
        return;
      }
      arcs := arcs + 1;
      status := Ok;
    }

    method DropArc() returns (destroyed: bool)
      requires Valid() && arcs > 0
      modifies this
      ensures var st := Spec.DropArc(old(Model())); destroyed == st.reply && Model() == st.next
      ensures Valid()
    {
      var prev := refCount;
      refCount := UsizeDec(prev);
      arcs := arcs - 1;
      destroyed := prev == 1;
      if destroyed {
        data := None;
        drops := drops + 1;
        freed := true;
      }
    }

    method GetMut() returns (r: Option<T>)
      requires Valid() && arcs > 0
      ensures r == Spec.GetMut(Model()).reply
      ensures r.Some? <==> arcs == 1
      ensures r.Some? ==> data == r
    {
      if refCount == 1 {
        r := data;
      } else {
        r := None;
      }
    }

    method Deref() returns (v: T)
      requires Valid() && arcs > 0
      ensures data == Some(v)
    {
      v := data.value;
    }
  }
}
