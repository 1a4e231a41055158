/** The `optimized` Arc/Weak pair: one allocation holding `strong_count`,
    `weak_count` and a manually dropped payload. All Arcs together own one
    implicit Weak, so `weak_count` is (number of Weaks) + 1 while any Arc lives.
    Every atomic operation is one step of a function on `Cell`; `get_mut`
    is split into its lock (a compare-exchange) and its unlock (the load of
    strong and the store of 1), so that other handles can act in between. */
module ArcOptimizedSpec {
  import opened Machine

  /** Reserved value of `weak_count` while `get_mut` inspects `strong_count`. */
  const WEAK_LOCKED: nat := USIZE_MAX

  /** One allocation. `data` is the payload cell (None once it has been
      dropped in place), `drops` counts payload destructions, `freed` records
      deallocation. `arcs` and `weaks` count the live Arc and Weak handles that
      point here, and `locked` whether a `get_mut` holds the weak count: the
      program does not store them, the model keeps them to state what the two
      counters mean. */
  datatype Cell<T> = Cell(strong: nat, weak: nat, data: Option<T>, drops: nat, freed: bool,
                          arcs: nat, weaks: nat, locked: bool)

  /** Messages of the two `assert!`s on the counts. */
  const WEAK_COUNT_ASSERT := "assertion failed: current_weak_count <= usize::MAX / 2"
  const STRONG_COUNT_ASSERT := "assertion failed: current_strong_count <= usize::MAX / 2"

  /** The counting invariant: every Arc contributes 1 to `strong`, every Weak
      and the implicit Weak of all Arcs contribute 1 to `weak`, except while a
      `get_mut` holds the weak count at `WEAK_LOCKED`, which it can only take
      when its Arc is live and no Weak exists; the payload is alive exactly
      while `strong > 0` and has been dropped exactly once after; the
      allocation is freed exactly when `weak` is 0. */
  predicate Inv<T>(c: Cell<T>) {
    && c.strong == c.arcs
    && (c.locked ==> c.weak == WEAK_LOCKED && c.arcs > 0 && c.weaks == 0)
    && (!c.locked ==> c.weak == c.weaks + (if c.arcs > 0 then 1 else 0) && c.weak <= USIZE_HALF + 1)
    && (c.data.Some? <==> c.strong > 0)
    && c.drops == (if c.strong > 0 then 0 else 1)
    && (c.freed <==> c.weak == 0)
    && c.strong <= USIZE_HALF + 1
  }

  /** `Arc::new`: strong 1, weak 1 (the implicit Weak held by all Arcs). */
  function New<T>(v: T): (c: Cell<T>)
    ensures Inv(c)
    ensures c.strong == 1 && c.weak == 1 && c.data == Some(v) && c.arcs == 1 && c.weaks == 0
    ensures !c.locked
  {
    Cell(1, 1, Some(v), 0, false, 1, 0, false)
  }

  /** `Clone for Arc`: `fetch_add(1)` on strong, then abort if the previous
      count exceeded `usize::MAX / 2`. */
  function CloneArc<T>(c: Cell<T>): (st: Step<(), Cell<T>>)
    requires c.arcs > 0
    ensures st.status == Ok <==> c.strong <= USIZE_HALF
    ensures st.status != Ok ==> st.status == Aborted
    ensures st.status == Ok ==> st.next == c.(strong := c.strong + 1, arcs := c.arcs + 1)
    ensures Inv(c) && st.status == Ok ==> Inv(st.next)
  {
    var prev := c.strong;
    if prev > USIZE_HALF then Step(Aborted, (), c.(strong := UsizeAdd(prev, 1)))
    else Step(Ok, (), c.(strong := prev + 1, arcs := c.arcs + 1))
  }

  /** `Clone for Weak`: the same rule on the weak count. */
  function CloneWeak<T>(c: Cell<T>): (st: Step<(), Cell<T>>)
    requires c.weaks > 0
    ensures st.status == Ok <==> c.weak <= USIZE_HALF
    ensures st.status != Ok ==> st.status == Aborted
    ensures st.status == Ok ==> st.next == c.(weak := c.weak + 1, weaks := c.weaks + 1)
    ensures Inv(c) && st.status == Ok ==> Inv(st.next)
  {
    var prev := c.weak;
    if prev > USIZE_HALF then Step(Aborted, (), c.(weak := UsizeAdd(prev, 1)))
    else Step(Ok, (), c.(weak := prev + 1, weaks := c.weaks + 1))
  }

  /** The count part of `Drop for Weak`: `fetch_sub(1)` on weak; the step that
      takes it from 1 to 0 deallocates. Shared by a Weak's drop and by the
      drop of the implicit Weak when the last Arc goes. */
  function ReleaseWeakCount<T>(c: Cell<T>): (c': Cell<T>)
    requires c.weak <= USIZE_MAX
    ensures c'.freed <==> c.freed || c.weak == 1
    ensures c.weak > 0 ==> c'.weak == c.weak - 1
    ensures c' == c.(weak := c'.weak, freed := c'.freed)
  {
    var prev := c.weak;
    c.(weak := UsizeDec(prev), freed := c.freed || prev == 1)
  }

  /** `Drop for Weak`; the reply says whether this drop freed the allocation. */
  function DropWeak<T>(c: Cell<T>): (st: Step<bool, Cell<T>>)
    requires c.weaks > 0 && c.weak <= USIZE_MAX
    ensures st.status == Ok
    ensures st.reply <==> c.weak == 1
    ensures Inv(c) ==> Inv(st.next) && st.next.strong == c.strong && st.next.weaks == c.weaks - 1
    ensures Inv(c) ==> (st.reply <==> c.arcs == 0 && c.weaks == 1)
  {
    Step(Ok, c.weak == 1, ReleaseWeakCount(c.(weaks := c.weaks - 1)))
  }

  /** `Drop for Arc`: `fetch_sub(1)` on strong; only the step from 1 to 0
      drops the payload in place and then drops the implicit Weak. The reply
      says whether this drop destroyed the payload. */
  function DropArc<T>(c: Cell<T>): (st: Step<bool, Cell<T>>)
    requires c.arcs > 0 && c.strong <= USIZE_MAX && c.weak <= USIZE_MAX
    ensures st.status == Ok
    ensures st.reply <==> c.strong == 1
    ensures st.reply ==> st.next.drops == c.drops + 1 && st.next.data == None
    ensures !st.reply ==> st.next.drops == c.drops && st.next.data == c.data && st.next.weak == c.weak
    ensures Inv(c) && !(c.locked && c.arcs == 1) ==> Inv(st.next) && st.next.arcs == c.arcs - 1
    ensures Inv(c) && !c.locked ==> (st.next.freed <==> c.arcs == 1 && c.weaks == 0)
  {
    var prev := c.strong;
    var c1 := c.(strong := UsizeDec(prev), arcs := c.arcs - 1);
    if prev == 1 then
      Step(Ok, true, ReleaseWeakCount(c1.(data := None, drops := c.drops + 1)))
    else
      Step(Ok, false, c1)
  }

  /** `Arc::downgrade`: spins while weak is `WEAK_LOCKED`, asserts weak is at
      most `usize::MAX / 2`, then adds exactly 1. */
  function Downgrade<T>(c: Cell<T>): (st: Step<(), Cell<T>>)
    requires c.arcs > 0
    ensures st.status == Spinning <==> c.weak == WEAK_LOCKED
    ensures st.status == Ok <==> c.weak <= USIZE_HALF
    ensures st.status != Ok ==> st.next == c
    ensures st.status == Ok ==> st.next == c.(weak := c.weak + 1, weaks := c.weaks + 1)
    ensures Inv(c) ==> (st.status == Spinning <==> c.locked)
    ensures Inv(c) && st.status == Ok ==> Inv(st.next)
  {
    if c.weak == WEAK_LOCKED then Step(Spinning, (), c)
    else if c.weak > USIZE_HALF then
      Step(Panicked(WEAK_COUNT_ASSERT), (), c)
    else Step(Ok, (), c.(weak := c.weak + 1, weaks := c.weaks + 1))
  }

  /** `Weak::upgrade`: no Arc when strong is 0; otherwise asserts strong is at
      most `usize::MAX / 2` and adds exactly 1. The reply says whether an Arc
      was returned. */
  function Upgrade<T>(c: Cell<T>): (st: Step<bool, Cell<T>>)
    requires c.weaks > 0
    ensures st.status == Ok <==> c.strong <= USIZE_HALF
    ensures st.status == Ok ==> (st.reply <==> c.strong != 0)
    ensures !st.reply ==> st.next == c
    ensures st.reply ==> st.next == c.(strong := c.strong + 1, arcs := c.arcs + 1)
    ensures Inv(c) && st.status == Ok ==> Inv(st.next)
    ensures Inv(c) && st.status == Ok ==> (st.reply <==> c.data.Some?)
  {
    if c.strong == 0 then Step(Ok, false, c)
    else if c.strong > USIZE_HALF then
      Step(Panicked(STRONG_COUNT_ASSERT), false, c)
    else Step(Ok, true, c.(strong := c.strong + 1, arcs := c.arcs + 1))
  }

  /** The first step of `get_mut`: compare-exchange weak from 1 to
      `WEAK_LOCKED`; None when weak was not 1, and then `get_mut` returns
      None. A live Arc sees 1 exactly when no Weak exists and no other
      `get_mut` holds the lock. */
  function LockWeak<T>(c: Cell<T>): (r: Option<Cell<T>>)
    ensures r.Some? <==> c.weak == 1
    ensures r.Some? ==> r.value == c.(weak := WEAK_LOCKED, locked := true)
    ensures Inv(c) && c.arcs > 0 ==> (r.Some? <==> !c.locked && c.weaks == 0)
    ensures Inv(c) && c.arcs > 0 && r.Some? ==> Inv(r.value)
  {
    if c.weak == 1 then Some(c.(weak := WEAK_LOCKED, locked := true)) else None
  }

  /** The second step of `get_mut`, by the thread holding the lock: load
      strong, then store 1 into weak. The reply says whether strong was 1. */
  function UnlockWeak<T>(c: Cell<T>): (st: Step<bool, Cell<T>>)
    requires c.locked
    ensures st.status == Ok && (st.reply <==> c.strong == 1)
    ensures st.next == c.(weak := 1, locked := false)
    ensures Inv(c) ==> Inv(st.next) && (st.reply <==> c.arcs == 1 && c.weaks == 0)
  {
    Step(Ok, c.strong == 1, c.(weak := 1, locked := false))
  }

  /** `Arc::get_mut` with nothing in between its two steps: the payload is
      handed out mutably only if the lock was taken and strong was 1. */
  function GetMut<T>(c: Cell<T>): (st: Step<Option<T>, Cell<T>>)
    requires c.arcs > 0
    ensures st.status == Ok
    ensures st.reply.Some? ==> c.weak == 1 && c.strong == 1 && st.reply == c.data
    ensures Inv(c) ==> st.next == c
    ensures Inv(c) ==> (st.reply.Some? <==> !c.locked && c.arcs == 1 && c.weaks == 0)
  {
    match LockWeak(c)
    case None => Step(Ok, None, c)
    case Some(held) =>
      var u := UnlockWeak(held);
      Step(Ok, if u.reply then c.data else None, u.next)
  }

  /** `Deref for Arc`: the payload, which a live Arc keeps alive. */
  function Deref<T>(c: Cell<T>): (v: T)
    requires Inv(c) && c.arcs > 0
    ensures c.data == Some(v)
  {
    c.data.value
  }

  /** The Arcs other threads can use: while a `get_mut` holds the lock, its
      own Arc is mutably borrowed and can do nothing else. */
  function FreeArcs<T>(c: Cell<T>): (n: nat)
    requires c.locked ==> c.arcs > 0
    ensures n <= c.arcs && (n == c.arcs <==> !c.locked)
  {
    if c.locked then c.arcs - 1 else c.arcs
  }

  /** The operations a thread holding the right handle can apply; `get_mut`
      is its lock and its unlock, so that other operations can run while the
      weak count is locked. */
  datatype Op = ArcClone | ArcDrop | ArcDowngrade | ArcLockWeak | ArcUnlockWeak
              | WeakClone | WeakDrop | WeakUpgrade

  /** One operation by a holder of the needed handle; None when no handle
      exists for it or the operation does not return normally (a panic, an
      abort, or a `downgrade` that spins). A failed lock returns normally and
      changes nothing. */
  function Apply<T>(c: Cell<T>, op: Op): (r: Option<Cell<T>>)
    requires Inv(c)
    ensures r.Some? ==> Inv(r.value)
  {
    match op
    case ArcClone =>
      if FreeArcs(c) > 0 && CloneArc(c).status == Ok then Some(CloneArc(c).next) else None
    case ArcDrop => if FreeArcs(c) > 0 then Some(DropArc(c).next) else None
    case ArcDowngrade =>
      if FreeArcs(c) > 0 && Downgrade(c).status == Ok then Some(Downgrade(c).next) else None
    case ArcLockWeak =>
      if FreeArcs(c) > 0 then
        match LockWeak(c)
        case None => Some(c)
        case Some(held) => Some(held)
      else None
    case ArcUnlockWeak => if c.locked then Some(UnlockWeak(c).next) else None
    case WeakClone =>
      if c.weaks > 0 && CloneWeak(c).status == Ok then Some(CloneWeak(c).next) else None
    case WeakDrop => if c.weaks > 0 then Some(DropWeak(c).next) else None
    case WeakUpgrade =>
      if c.weaks > 0 && Upgrade(c).status == Ok then Some(Upgrade(c).next) else None
  }

  /** A single-threaded run: operations in order, until one cannot be applied. */
  function Run<T>(c: Cell<T>, ops: seq<Op>): Cell<T>
    requires Inv(c)
    decreases |ops|
  {
    if ops == [] then c
    else match Apply(c, ops[0])
      case None => c
      case Some(c') => Run(c', ops[1..])
  }

  /** Every run keeps the counting invariant. */
  lemma {:induction false} RunKeepsInv<T>(c: Cell<T>, ops: seq<Op>)
    requires Inv(c)
    ensures Inv(Run(c, ops))
    decreases |ops|
  {
    if ops != [] {
      match Apply(c, ops[0])
      case None =>
      case Some(c') => RunKeepsInv(c', ops[1..]);
    }
  }

  /** The lifecycle from `Arc::new`, whatever the operations: the payload is
      destroyed at most once, exactly when no Arc is left; the allocation is
      freed exactly when no Arc and no Weak is left, and then the payload has
      already been destroyed. While a `get_mut` holds the weak count no Weak
      exists and a `downgrade` spins; otherwise it never spins. */
  lemma Lifecycle<T>(v: T, ops: seq<Op>)
    ensures var e := Run(New(v), ops);
      && e.drops <= 1
      && (e.drops == 1 <==> e.arcs == 0)
      && (e.freed <==> e.arcs == 0 && e.weaks == 0)
      && (e.freed ==> e.drops == 1)
      && (e.data.Some? ==> e.data == Some(v))
      && (e.locked ==> e.weaks == 0 && e.arcs > 0)
      && (e.arcs > 0 ==> (Downgrade(e).status == Spinning <==> e.locked))
  {
    RunKeepsInv(New(v), ops);
    RunKeepsData(New(v), ops, v);
  }

  /** No operation replaces the payload with another value. */
  lemma {:induction false} RunKeepsData<T>(c: Cell<T>, ops: seq<Op>, v: T)
    requires Inv(c) && (c.data.Some? ==> c.data == Some(v))
    ensures var e := Run(c, ops); e.data.Some? ==> e.data == Some(v)
    decreases |ops|
  {
    if ops != [] {
      match Apply(c, ops[0])
      case None =>
      case Some(c') => RunKeepsData(c', ops[1..], v);
    }
  }

  /** `get_mut` racing with another Arc's `downgrade` (the case the lock is
      there for): while the weak count is locked the downgrade spins and
      changes nothing; the unlock sees the second Arc, so `get_mut` hands out
      nothing; then the downgrade goes through. */
  lemma DowngradeWaitsForGetMut<T>(v: T)
    ensures var x := New(v);
      var y := CloneArc(x).next;
      var held := LockWeak(y);
      && held.Some?
      && Downgrade(held.value).status == Spinning && Downgrade(held.value).next == held.value
      && var u := UnlockWeak(held.value);
      && !u.reply && u.next == y
      && Downgrade(u.next).status == Ok && Downgrade(u.next).next.weak == 2
  {
  }

  /** The `test` scenario: clone an Arc, drop one, drop the other; the
      payload is dropped by the second drop and not before. */
  lemma CloneThenDropBoth<T>(v: T)
    ensures var x := New(v);
      var y := CloneArc(x).next;
      var afterX := DropArc(y);
      var afterY := DropArc(afterX.next);
      && CloneArc(x).status == Ok
      && !afterX.reply && afterX.next.drops == 0
      && afterY.reply && afterY.next.drops == 1 && afterY.next.freed
  {
  }

  /** The `test_weak` scenario: an Arc and two downgraded Weaks. `upgrade`
      succeeds while the Arc lives and the payload is not dropped; after the
      Arc is dropped the payload has been dropped exactly once and `upgrade`
      returns nothing; dropping the last Weak frees the allocation. */
  lemma TwoWeaksScenario<T>(v: T)
    ensures var x := New(v);
      var y := Downgrade(x).next;
      var z := Downgrade(y).next;
      var up1 := Upgrade(z);
      var s1 := DropArc(up1.next).next;
      var s2 := DropWeak(s1).next;
      var up2 := Upgrade(s2);
      var s3 := DropArc(up2.next).next;
      var s4 := DropArc(s3);
      var up3 := Upgrade(s4.next);
      var s5 := DropWeak(up3.next);
      && up1.reply && s2.drops == 0 && up2.reply && s3.drops == 0
      && s4.reply && s4.next.drops == 1 && !s4.next.freed
      && !up3.reply && up3.next.drops == 1
      && s5.reply && s5.next.freed
  {
  }
}

/** The allocation of the `optimized` module as an object whose counters the
    operations update in place. Each method performs its atomic operations in
    program order and is proved to take exactly the step `ArcOptimizedSpec`
    gives for it. */
module ArcOptimized {
  import opened Machine
  import Spec = ArcOptimizedSpec

  class ArcData<T> {
    var strongCount: nat
    var weakCount: nat
    /** The `ManuallyDrop<T>` payload cell; None once dropped in place. */
    var data: Option<T>
    var drops: nat
    var freed: bool
    /** Live Arc and Weak handles (bookkeeping of the model). */
    ghost var arcs: nat
    ghost var weaks: nat
    /** Whether a `get_mut` holds the weak count (bookkeeping of the model). */
    ghost var locked: bool

    ghost function Model(): Spec.Cell<T>
      reads this
    {
      Spec.Cell(strongCount, weakCount, data, drops, freed, arcs, weaks, locked)
    }

    ghost predicate Valid()
      reads this
    {
      Spec.Inv(Model())
    }

    constructor New(v: T)
      ensures Model() == Spec.New(v) && Valid()
    {
      strongCount, weakCount := 1, 1;
      data := Some(v);
      drops, freed := 0, false;
      arcs, weaks := 1, 0;
      locked := false;
    }

    method CloneArc() returns (status: Status)
      requires Valid() && arcs > 0
      modifies this
      ensures var st := Spec.CloneArc(old(Model())); status == st.status && Model() == st.next
      ensures status == Ok ==> Valid()
    {
      var prev := strongCount;
      strongCount := UsizeAdd(prev, 1);
      if prev > USIZE_HALF {
        status := Aborted;
        return;
      }
      arcs := arcs + 1;
      status := Ok;
    }

    method CloneWeak() returns (status: Status)
      requires Valid() && weaks > 0
      modifies this
      ensures var st := Spec.CloneWeak(old(Model())); status == st.status && Model() == st.next
      ensures status == Ok ==> Valid()
    {
      var prev := weakCount;
      weakCount := UsizeAdd(prev, 1);
      if prev > USIZE_HALF {
        status := Aborted;
        return;
      }
      weaks := weaks + 1;
      status := Ok;
    }

    /** `fetch_sub(1)` on the weak count; deallocates on the step from 1 to 0. */
    method ReleaseWeakCount() returns (deallocated: bool)
      requires weakCount <= USIZE_MAX
      modifies this
      ensures Model() == Spec.ReleaseWeakCount(old(Model()))
      ensures deallocated <==> old(weakCount) == 1
    {
      var prev := weakCount;
      weakCount := UsizeDec(prev);
      deallocated := prev == 1;
      if deallocated {
        freed := true;
      }
    }

    method DropWeak() returns (deallocated: bool)
      requires Valid() && weaks > 0
      modifies this
      ensures var st := Spec.DropWeak(old(Model())); deallocated == st.reply && Model() == st.next
      ensures Valid()
    {
      weaks := weaks - 1;
      deallocated := ReleaseWeakCount();
    }

    /** The Arc dropped is not one a `get_mut` holds borrowed. */
    method DropArc() returns (destroyed: bool)
      requires Valid() && Spec.FreeArcs(Model()) > 0
      modifies this
      ensures var st := Spec.DropArc(old(Model())); destroyed == st.reply && Model() == st.next
      ensures Valid()
    {
      var prev := strongCount;
      strongCount := UsizeDec(prev);
      arcs := arcs - 1;
      destroyed := prev == 1;
      if destroyed {
        data := None;
        drops := drops + 1;
        var _ := ReleaseWeakCount();
      }
    }

    method Downgrade() returns (status: Status)
      requires Valid() && arcs > 0
      modifies this
      ensures var st := Spec.Downgrade(old(Model())); status == st.status && Model() == st.next
      ensures status == Ok ==> Valid()
    {
      var current := weakCount;
      if current == Spec.WEAK_LOCKED {
        status := Spinning;
        return;
      }
      if current > USIZE_HALF {
        status := Panicked(Spec.WEAK_COUNT_ASSERT);
        return;
      }
      weakCount := current + 1;
      weaks := weaks + 1;
      status := Ok;
    }

    method Upgrade() returns (status: Status, upgraded: bool)
      requires Valid() && weaks > 0
      modifies this
      ensures var st := Spec.Upgrade(old(Model()));
        status == st.status && upgraded == st.reply && Model() == st.next
      ensures status == Ok ==> Valid()
    {
      var current := strongCount;
      if current == 0 {
        return Ok, false;
      }
      if current > USIZE_HALF {
        return Panicked(Spec.STRONG_COUNT_ASSERT), false;
      }
      strongCount := current + 1;
      arcs := arcs + 1;
      return Ok, true;
    }

    /** The compare-exchange of weak from 1 to `WEAK_LOCKED`. */
    method LockWeak() returns (held: bool)
      modifies this
      ensures var r := Spec.LockWeak(old(Model()));
        held == r.Some? && Model() == if held then r.value else old(Model())
    {
      held := weakCount == 1;
      if held {
        weakCount := Spec.WEAK_LOCKED;
        locked := true;
      }
    }

    /** The load of strong, then the store of 1 into weak. */
    method UnlockWeak() returns (unique: bool)
      requires locked
      modifies this
      ensures var st := Spec.UnlockWeak(old(Model())); unique == st.reply && Model() == st.next
    {
      var strong := strongCount;
      weakCount := 1;
      locked := false;
      unique := strong == 1;
    }

    /** Called through an Arc that no other `get_mut` holds borrowed. */
    method GetMut() returns (r: Option<T>)
      requires Valid() && Spec.FreeArcs(Model()) > 0
      modifies this
      ensures var st := Spec.GetMut(old(Model())); r == st.reply && Model() == st.next
      ensures Model() == old(Model()) && Valid()
      ensures r.Some? <==> arcs == 1 && weaks == 0
      ensures r.Some? ==> data == r
    {
      var held := LockWeak();
      if !held {
        return None;
      }
      var unique := UnlockWeak();
      if unique {
        r := data;
      } else {
        r := None;
      }
    }

    method Deref() returns (v: T)
      requires Valid() && arcs > 0
      ensures data == Some(v)
    {
      v := data.value;
    }
  }
}
