/** The `weak` Arc/Weak pair: `data_ref_count` counts Arcs, `alloc_ref_count`
    counts Arcs and Weaks together, because every Arc is a wrapper around a
    Weak (its field `weak`). The payload cell is an `Option<T>` that the last
    Arc's drop sets to None. When an Arc is dropped, its own drop runs first
    and the drop glue then drops its `weak` field, which releases one
    allocation reference: the model writes that second step out. */
module ArcWeakSpec {
  import opened Machine

  /** One allocation; `arcs` and `weaks` count the live Arc and (stand-alone)
      Weak handles, as bookkeeping of the model. */
  datatype Cell<T> = Cell(dataRefs: nat, allocRefs: nat, data: Option<T>, drops: nat, freed: bool,
                          arcs: nat, weaks: nat)

  /** The counting invariant: `data_ref_count` is the number of Arcs,
      `alloc_ref_count` the number of Arcs plus Weaks; the payload is present
      exactly while an Arc lives and was dropped exactly once after; the
      allocation is freed exactly when `alloc_ref_count` is 0. */
  predicate Inv<T>(c: Cell<T>) {
    && c.dataRefs == c.arcs
    && c.allocRefs == c.arcs + c.weaks
    && (c.data.Some? <==> c.dataRefs > 0)
    && c.drops == (if c.dataRefs > 0 then 0 else 1)
    && (c.freed <==> c.allocRefs == 0)
    && c.allocRefs <= USIZE_HALF + 1
  }

  /** `Arc::new`: both counts 1, payload `Some(v)`. */
  function New<T>(v: T): (c: Cell<T>)
    ensures Inv(c) && c.data == Some(v) && c.arcs == 1 && c.weaks == 0
  {
    Cell(1, 1, Some(v), 0, false, 1, 0)
  }

  /** The count part of `Clone for Weak`: `fetch_add(1)` on
      `alloc_ref_count`, aborting if the previous value exceeded
      `usize::MAX / 2`. */
  function AddAllocRef<T>(c: Cell<T>): (st: Step<(), Cell<T>>)
    ensures st.status == Ok <==> c.allocRefs <= USIZE_HALF
    ensures st.status != Ok ==> st.status == Aborted
    ensures st.status == Ok ==> st.next == c.(allocRefs := c.allocRefs + 1)
  {
    var prev := c.allocRefs;
    if prev > USIZE_HALF then Step(Aborted, (), c.(allocRefs := UsizeAdd(prev, 1)))
    else Step(Ok, (), c.(allocRefs := prev + 1))
  }

  /** The count part of `Drop for Weak`: `fetch_sub(1)` on
      `alloc_ref_count`; the step from 1 to 0 deallocates. */
  function ReleaseAllocRef<T>(c: Cell<T>): (c': Cell<T>)
    requires c.allocRefs <= USIZE_MAX
    ensures c'.freed <==> c.freed || c.allocRefs == 1
    ensures c.allocRefs > 0 ==> c'.allocRefs == c.allocRefs - 1
    ensures c' == c.(allocRefs := c'.allocRefs, freed := c'.freed)
  {
    var prev := c.allocRefs;
    c.(allocRefs := UsizeDec(prev), freed := c.freed || prev == 1)
  }

  /** `Clone for Weak`. */
  function CloneWeak<T>(c: Cell<T>): (st: Step<(), Cell<T>>)
    requires c.weaks > 0
    ensures st.status == Ok <==> c.allocRefs <= USIZE_HALF
    ensures st.status == Ok ==> st.next == c.(allocRefs := c.allocRefs + 1, weaks := c.weaks + 1)
    ensures Inv(c) && st.status == Ok ==> Inv(st.next)
  {
    var st := AddAllocRef(c);
    if st.status == Ok then Step(Ok, (), st.next.(weaks := c.weaks + 1)) else st
  }

  /** `Arc::downgrade`: clones the Arc's inner Weak. */
  function Downgrade<T>(c: Cell<T>): (st: Step<(), Cell<T>>)
    requires c.arcs > 0
    ensures st.status == Ok <==> c.allocRefs <= USIZE_HALF
    ensures st.status == Ok ==> st.next == c.(allocRefs := c.allocRefs + 1, weaks := c.weaks + 1)
    ensures Inv(c) && st.status == Ok ==> Inv(st.next)
  {
    var st := AddAllocRef(c);
    if st.status == Ok then Step(Ok, (), st.next.(weaks := c.weaks + 1)) else st
  }

  /** `Clone for Arc`: first clones the inner Weak (allocation count, may
      abort), then `fetch_add(1)` on `data_ref_count` (may abort). */
  function CloneArc<T>(c: Cell<T>): (st: Step<(), Cell<T>>)
    requires c.arcs > 0
    ensures Inv(c) ==> (st.status == Ok <==> c.allocRefs <= USIZE_HALF)
    ensures st.status == Ok ==>
      st.next == c.(dataRefs := c.dataRefs + 1, allocRefs := c.allocRefs + 1, arcs := c.arcs + 1)
    ensures Inv(c) && st.status == Ok ==> Inv(st.next)
  {
    var w := AddAllocRef(c);
    if w.status != Ok then w
    else
      var prev := c.dataRefs;
      if prev > USIZE_HALF then Step(Aborted, (), w.next.(dataRefs := UsizeAdd(prev, 1)))
      else Step(Ok, (), w.next.(dataRefs := prev + 1, arcs := c.arcs + 1))
  }

  /** `Drop for Weak`; the reply says whether this drop freed the allocation. */
  function DropWeak<T>(c: Cell<T>): (st: Step<bool, Cell<T>>)
    requires c.weaks > 0 && c.allocRefs <= USIZE_MAX
    ensures st.status == Ok && (st.reply <==> c.allocRefs == 1)
    ensures Inv(c) ==> Inv(st.next) && (st.reply <==> c.arcs == 0 && c.weaks == 1)
  {
    Step(Ok, c.allocRefs == 1, ReleaseAllocRef(c.(weaks := c.weaks - 1)))
  }

  /** `Drop for Arc` followed by the drop of its `weak` field: `fetch_sub(1)`
      on `data_ref_count`, and on the step from 1 to 0 the payload is set to
      None (dropping it); then `fetch_sub(1)` on `alloc_ref_count`, freeing
      the allocation on the step from 1 to 0. The reply says whether this
      drop destroyed the payload. */
  function DropArc<T>(c: Cell<T>): (st: Step<bool, Cell<T>>)
    requires c.arcs > 0 && c.dataRefs <= USIZE_MAX && c.allocRefs <= USIZE_MAX
    ensures st.status == Ok && (st.reply <==> c.dataRefs == 1)
    ensures st.reply ==> st.next.drops == c.drops + 1 && st.next.data == None
    ensures !st.reply ==> st.next.drops == c.drops && st.next.data == c.data
    ensures c.allocRefs > 0 ==> st.next.allocRefs == c.allocRefs - 1
    ensures Inv(c) ==> Inv(st.next) && st.next.arcs == c.arcs - 1
    ensures Inv(c) ==> (st.next.freed <==> c.arcs == 1 && c.weaks == 0)
  {
    var prev := c.dataRefs;
    var c1 := c.(dataRefs := UsizeDec(prev), arcs := c.arcs - 1);
    var c2 := if prev == 1 then c1.(data := None, drops := c.drops + 1) else c1;
    Step(Ok, prev == 1, ReleaseAllocRef(c2))
  }

  /** Message of the `assert!` in `Weak::upgrade`. */
  const DATA_COUNT_ASSERT := "assertion failed: current_data_ref_count <= usize::MAX / 2"

  /** `Weak::upgrade`: nothing when `data_ref_count` is 0; otherwise asserts
      it is at most `usize::MAX / 2`, adds 1, and wraps a clone of this Weak
      (allocation count + 1, which may abort) into the new Arc. The reply says
      whether an Arc was returned. */
  function Upgrade<T>(c: Cell<T>): (st: Step<bool, Cell<T>>)
    requires c.weaks > 0
    ensures st.reply ==> st.status == Ok
    ensures c.dataRefs == 0 ==> st.status == Ok && !st.reply && st.next == c
    ensures st.reply ==>
      st.next == c.(dataRefs := c.dataRefs + 1, allocRefs := c.allocRefs + 1, arcs := c.arcs + 1)
    ensures Inv(c) && st.status == Ok ==> Inv(st.next) && (st.reply <==> c.data.Some?)
  {
    var current := c.dataRefs;
    if current == 0 then Step(Ok, false, c)
    else if current > USIZE_HALF then Step(Panicked(DATA_COUNT_ASSERT), false, c)
    else
      var c1 := c.(dataRefs := current + 1);
      var w := AddAllocRef(c1);
      if w.status != Ok then Step(w.status, false, w.next)
      else Step(Ok, true, w.next.(arcs := c.arcs + 1))
  }

  /** `Arc::get_mut`: the payload, mutably, when `alloc_ref_count` is 1. */
  function GetMut<T>(c: Cell<T>): (st: Step<Option<T>, Cell<T>>)
    requires c.arcs > 0
    ensures st.status == Ok && st.next == c
    ensures st.reply.Some? ==> c.allocRefs == 1 && st.reply == c.data
    ensures Inv(c) ==> (st.reply.Some? <==> c.arcs == 1 && c.weaks == 0)
  {
    Step(Ok, if c.allocRefs == 1 then c.data else None, c)
  }

  /** `Deref for Arc`: unwraps the payload; a live Arc keeps it present, so
      the unwrap does not panic. */
  function Deref<T>(c: Cell<T>): (v: T)
    requires Inv(c) && c.arcs > 0
    ensures c.data == Some(v)
  {
    c.data.value
  }

  /** The operations a thread holding the right handle can apply. */
  datatype Op = ArcClone | ArcDrop | ArcDowngrade | ArcGetMut | WeakClone | WeakDrop | WeakUpgrade

  /** One operation by a holder of the needed handle; None when no handle
      exists for it or the operation does not return normally. */
  function Apply<T>(c: Cell<T>, op: Op): (r: Option<Cell<T>>)
    requires Inv(c)
    ensures r.Some? ==> Inv(r.value)
  {
    match op
    case ArcClone =>
      if c.arcs > 0 && CloneArc(c).status == Ok then Some(CloneArc(c).next) else None
    case ArcDrop => if c.arcs > 0 then Some(DropArc(c).next) else None
    case ArcDowngrade =>
      if c.arcs > 0 && Downgrade(c).status == Ok then Some(Downgrade(c).next) else None
    case ArcGetMut => if c.arcs > 0 then Some(GetMut(c).next) else None
    case WeakClone =>
      if c.weaks > 0 && CloneWeak(c).status == Ok then Some(CloneWeak(c).next) else None
    case WeakDrop => if c.weaks > 0 then Some(DropWeak(c).next) else None
    case WeakUpgrade =>
      if c.weaks > 0 && Upgrade(c).status == Ok then Some(Upgrade(c).next) else None
  }

  /** A single-threaded run: operations in order, until one cannot be applied. */
  function Run<T>(c: Cell<T>, ops: seq<Op>): Cell<T>
    requires Inv(c)
    decreases |ops|
  {
    if ops == [] then c
    else match Apply(c, ops[0])
      case None => c
      case Some(c') => Run(c', ops[1..])
  }

  lemma {:induction false} RunKeepsInv<T>(c: Cell<T>, ops: seq<Op>)
    requires Inv(c)
    ensures Inv(Run(c, ops))
    decreases |ops|
  {
    if ops != [] {
      match Apply(c, ops[0])
      case None =>
      case Some(c') => RunKeepsInv(c', ops[1..]);
    }
  }

  /** The lifecycle from `Arc::new`, whatever the operations: the payload is
      dropped at most once, exactly when no Arc is left; the allocation is
      freed exactly when no Arc and no Weak is left. */
  lemma Lifecycle<T>(v: T, ops: seq<Op>)
    ensures var e := Run(New(v), ops);
      && e.drops <= 1
      && (e.drops == 1 <==> e.arcs == 0)
      && (e.freed <==> e.arcs == 0 && e.weaks == 0)
      && (e.freed ==> e.drops == 1)
  {
    RunKeepsInv(New(v), ops);
  }

  /** The `test_weak` scenario on this variant, in three parts glued by the
      concrete states between them. First: an Arc and two downgraded Weaks;
      upgrading one Weak succeeds while the Arc lives. */
  lemma TwoWeaksUpgradeWhileArcLives<T>(v: T)
    ensures var z := Downgrade(Downgrade(New(v)).next).next;
      && z == Cell(1, 3, Some(v), 0, false, 1, 2)
      && Upgrade(z).reply
      && Upgrade(z).next == Cell(2, 4, Some(v), 0, false, 2, 2)
  {
    var y := Downgrade(New(v)).next;
    assert y == Cell(1, 2, Some(v), 0, false, 1, 1);
  }

  /** Second: the spawned thread drops its upgraded Arc and its Weak; the
      payload is still there and the other Weak still upgrades. */
  lemma TwoWeaksThreadEnds<T>(v: T)
    ensures var s := DropWeak(DropArc(Cell(2, 4, Some(v), 0, false, 2, 2)).next).next;
      && s == Cell(1, 2, Some(v), 0, false, 1, 1)
      && s.drops == 0
      && Upgrade(s).reply
      && DropArc(Upgrade(s).next).next == s
  {
    var s1 := DropArc(Cell(2, 4, Some(v), 0, false, 2, 2)).next;
    assert s1 == Cell(1, 3, Some(v), 0, false, 1, 2);
  }

  /** Third: dropping the Arc drops the payload exactly once, the remaining
      Weak no longer upgrades, and dropping it frees the allocation. */
  lemma TwoWeaksAfterArcDropped<T>(v: T)
    ensures var d := DropArc(Cell(1, 2, Some(v), 0, false, 1, 1));
      && d.reply && d.next.drops == 1 && !d.next.freed
      && !Upgrade(d.next).reply && Upgrade(d.next).next == d.next
      && DropWeak(d.next).reply && DropWeak(d.next).next.freed
  {
    var d := DropArc(Cell(1, 2, Some(v), 0, false, 1, 1));
    assert d.next == Cell(0, 1, None, 1, false, 0, 1);
  }
}

/** The allocation of the `weak` module as an object whose counters the
    operations update in place, each method proved to take exactly the step
    `ArcWeakSpec` gives for it. */
module ArcWeak {
  import opened Machine
  import Spec = ArcWeakSpec

  class ArcData<T> {
    var dataRefCount: nat
    var allocRefCount: nat
    /** The `UnsafeCell<Option<T>>` payload cell. */
    var data: Option<T>
    var drops: nat
    var freed: bool
    ghost var arcs: nat
    ghost var weaks: nat

    ghost function Model(): Spec.Cell<T>
      reads this
    {
      Spec.Cell(dataRefCount, allocRefCount, data, drops, freed, arcs, weaks)
    }

    ghost predicate Valid()
      reads this
    {
      Spec.Inv(Model())
    }

    constructor New(v: T)
      ensures Model() == Spec.New(v) && Valid()
    {
      dataRefCount, allocRefCount := 1, 1;
      data := Some(v);
      drops, freed := 0, false;
      arcs, weaks := 1, 0;
    }

    /** `fetch_add(1)` on `alloc_ref_count`, then abort above the limit. */
    method AddAllocRef() returns (status: Status)
      modifies this
      ensures var st := Spec.AddAllocRef(old(Model())); status == st.status && Model() == st.next
    {
      var prev := allocRefCount;
      allocRefCount := UsizeAdd(prev, 1);
      status := if prev > USIZE_HALF then Aborted else Ok;
    }

    /** `fetch_sub(1)` on `alloc_ref_count`; deallocates on the step from 1 to 0. */
    method ReleaseAllocRef() returns (deallocated: bool)
      requires allocRefCount <= USIZE_MAX
      modifies this
      ensures Model() == Spec.ReleaseAllocRef(old(Model()))
      ensures deallocated <==> old(allocRefCount) == 1
    {
      var prev := allocRefCount;
      allocRefCount := UsizeDec(prev);
      deallocated := prev == 1;
      if deallocated {
        freed := true;
      }
    }

    method CloneWeak() returns (status: Status)
      requires Valid() && weaks > 0
      modifies this
      ensures var st := Spec.CloneWeak(old(Model())); status == st.status && Model() == st.next
      ensures status == Ok ==> Valid()
    {
      status := AddAllocRef();
      if status == Ok {
        weaks := weaks + 1;
      }
    }

    method Downgrade() returns (status: Status)
      requires Valid() && arcs > 0
      modifies this
      ensures var st := Spec.Downgrade(old(Model())); status == st.status && Model() == st.next
      ensures status == Ok ==> Valid()
    {
      status := AddAllocRef();
      if status == Ok {
        weaks := weaks + 1;
      }
    }

    method CloneArc() returns (status: Status)
      requires Valid() && arcs > 0
      modifies this
      ensures var st := Spec.CloneArc(old(Model())); status == st.status && Model() == st.next
      ensures status == Ok ==> Valid()
    {
      status := AddAllocRef();
      if status != Ok {
        return;
      }
      var prev := dataRefCount;
      dataRefCount := UsizeAdd(prev, 1);
      if prev > USIZE_HALF {
        status := Aborted;
        return;
      }
      arcs := arcs + 1;
    }

    method DropWeak() returns (deallocated: bool)
      requires Valid() && weaks > 0
      modifies this
      ensures var st := Spec.DropWeak(old(Model())); deallocated == st.reply && Model() == st.next
      ensures Valid()
    {
      weaks := weaks - 1;
      deallocated := ReleaseAllocRef();
    }

    method DropArc() returns (destroyed: bool)
      requires Valid() && arcs > 0
      modifies this
      ensures var st := Spec.DropArc(old(Model())); destroyed == st.reply && Model() == st.next
      ensures Valid()
    {
      var prev := dataRefCount;
      dataRefCount := UsizeDec(prev);
      arcs := arcs - 1;
      destroyed := prev == 1;
      if destroyed {
        data := None;
        drops := drops + 1;
      }
      // drop glue: the Arc's `weak` field is dropped next
      var _ := ReleaseAllocRef();
    }

    method Upgrade() returns (status: Status, upgraded: bool)
      requires Valid() && weaks > 0
      modifies this
      ensures var st := Spec.Upgrade(old(Model()));
        status == st.status && upgraded == st.reply && Model() == st.next
      ensures status == Ok ==> Valid()
    {
      var current := dataRefCount;
      if current == 0 {
        return Ok, false;
      }
      if current > USIZE_HALF {
        return Panicked(Spec.DATA_COUNT_ASSERT), false;
      }
      dataRefCount := current + 1;
      status := AddAllocRef();
      upgraded := status == Ok;
      if upgraded {
        arcs := arcs + 1;
      }
    }

    method GetMut() returns (r: Option<T>)
      requires Valid() && arcs > 0
      ensures r == Spec.GetMut(Model()).reply
      ensures r.Some? <==> arcs == 1 && weaks == 0
      ensures r.Some? ==> data == r
    {
      if allocRefCount == 1 {
        r := data;
      } else {
        r := None;
      }
    }

    method Deref() returns (v: T)
      requires Valid() && arcs > 0
      ensures data == Some(v)
    {
      v := data.value;
    }
  }
}
