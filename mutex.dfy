/** The three-state mutex of `ch9_locks/mutex.rs`. The `state` word is 0
    (unlocked), 1 (locked, nobody waiting) or 2 (locked, maybe waiters).
    A thread that finds the word non-zero after its swap to 2 blocks in a
    futex wait; the model counts such threads in `blocked`, and those that a
    release has woken but that have not yet run again in `woken`. */
module MutexSpec {
  import opened Machine

  /** The state word, the protected value, whether a guard is live, and the
      blocked and woken threads (bookkeeping of the model). */
  datatype Lock<V> = Lock(state: nat, value: V, held: bool, blocked: nat, woken: nat)

  /** The word is always 0, 1 or 2, and 0 exactly when no guard is live; a
      blocked thread is never stranded: either the word is 2, so the next
      release wakes someone, or a woken thread will set it to 2 again. */
  predicate Inv<V>(m: Lock<V>) {
    && m.state <= 2
    && (m.state == 0 <==> !m.held)
    && (m.blocked > 0 ==> m.state == 2 || m.woken > 0)
  }

  /** `Mutex::new`: unlocked, state 0. */
  function New<V>(v: V): (m: Lock<V>)
    ensures Inv(m) && m.state == 0 && !m.held && m.value == v
  {
    Lock(0, v, false, 0, 0)
  }

  /** How many times the spin loop of `lock_contended` runs when no other
      thread changes the word: it spins only while the word is 1, at most 100
      times. */
  function SpinIterations(state: nat): (n: nat)
    ensures n <= 100
    ensures n > 0 <==> state == 1
  {
    if state == 1 then 100 else 0
  }

  /** One turn of the loop `while state.swap(2) != 0 { wait(state, 2) }`:
      the swap acquires the lock if it saw 0; otherwise the wait finds the
      word still 2 and the thread blocks. */
  function SwapToContended<V>(m: Lock<V>): (st: Step<(), Lock<V>>)
    ensures st.next.state == 2
    ensures st.status == Ok <==> m.state == 0
    ensures st.status != Ok ==> st.status == Blocked && st.next.blocked == m.blocked + 1
    ensures Inv(m) ==> Inv(st.next) && st.next.held
  {
    if m.state == 0 then Step(Ok, (), m.(state := 2, held := true))
    else Step(Blocked, (), m.(state := 2, blocked := m.blocked + 1))
  }

  /** `lock_contended`: spin (the word does not change in a sequential run),
      retry the 0 to 1 compare-exchange, then swap to 2. Returns holding the
      lock, or blocked. */
  function LockContended<V>(m: Lock<V>): (st: Step<(), Lock<V>>)
    ensures st.status == Ok || st.status == Blocked
    ensures st.status == Ok <==> m.state == 0
    ensures st.status == Ok ==> st.next == m.(state := 1, held := true)
    ensures st.status == Blocked ==> st.next == m.(state := 2, blocked := m.blocked + 1)
    ensures Inv(m) ==> Inv(st.next)
  {
    if m.state == 0 then Step(Ok, (), m.(state := 1, held := true))
    else SwapToContended(m)
  }

  /** `Mutex::lock`: the fast path is the compare-exchange from 0 to 1;
      otherwise `lock_contended`. */
  function Acquire<V>(m: Lock<V>): (st: Step<(), Lock<V>>)
    ensures st.status == Ok <==> m.state == 0
    ensures st.status == Ok ==> st.next == m.(state := 1, held := true)
    ensures st.status != Ok ==>
      st.status == Blocked && st.next == m.(state := 2, blocked := m.blocked + 1)
    ensures Inv(m) ==> Inv(st.next)
  {
    if m.state == 0 then Step(Ok, (), m.(state := 1, held := true))
    else LockContended(m)
  }

  /** A thread that a release has woken runs the swap loop again. */
  function Resume<V>(m: Lock<V>): (st: Step<(), Lock<V>>)
    requires m.woken > 0
    ensures st.next.state == 2 && st.next.woken == m.woken - 1
    ensures st.status == Ok <==> m.state == 0
    ensures Inv(m) ==> Inv(st.next)
  {
    SwapToContended(m.(woken := m.woken - 1))
  }

  /** `Drop for MutexGuard`: swap the word to 0 and wake one waiter exactly
      when the previous value was 2. The reply says whether it woke. */
  function Release<V>(m: Lock<V>): (st: Step<bool, Lock<V>>)
    requires m.held
    ensures st.status == Ok && st.next.state == 0 && !st.next.held
    ensures st.reply <==> m.state == 2
    ensures st.next.value == m.value
    ensures st.reply && m.blocked > 0 ==>
      st.next.blocked == m.blocked - 1 && st.next.woken == m.woken + 1
    ensures !(st.reply && m.blocked > 0) ==> st.next.blocked == m.blocked && st.next.woken == m.woken
    ensures Inv(m) ==> Inv(st.next)
  {
    var prev := m.state;
    var m1 := m.(state := 0, held := false);
    if prev == 2 && m.blocked > 0 then Step(Ok, true, m1.(blocked := m.blocked - 1, woken := m.woken + 1))
    else Step(Ok, prev == 2, m1)
  }

  /** `DerefMut for MutexGuard`: the guard's holder writes the value. */
  function Write<V>(m: Lock<V>, v: V): (m': Lock<V>)
    requires m.held
    ensures m' == m.(value := v)
    ensures Inv(m) ==> Inv(m')
  {
    m.(value := v)
  }

  /** The steps of the threads sharing one mutex: a `lock` (which blocks
      after marking the word 2 when the lock is taken), a woken thread's
      retry, a write through the guard, and the guard's drop. */
  datatype Op<V> = LockOp | ResumeOp | WriteOp(v: V) | UnlockOp

  /** One step; None when no thread is in a position to take it (no woken
      thread, no live guard). A `lock` or retry that blocks still takes its
      step: it has already swapped the word to 2. */
  function Apply<V>(m: Lock<V>, op: Op<V>): (r: Option<Lock<V>>)
    requires Inv(m)
    ensures r.Some? ==> Inv(r.value)
  {
    match op
    case LockOp => Some(Acquire(m).next)
    case ResumeOp => if m.woken > 0 then Some(Resume(m).next) else None
    case WriteOp(v) => if m.held then Some(Write(m, v)) else None
    case UnlockOp => if m.held then Some(Release(m).next) else None
  }

  /** An interleaving of steps, in order, until one cannot be taken. */
  function Run<V>(m: Lock<V>, ops: seq<Op<V>>): Lock<V>
    requires Inv(m)
    decreases |ops|
  {
    if ops == [] then m
    else match Apply(m, ops[0])
      case None => m
      case Some(m') => Run(m', ops[1..])
  }

  /** Every interleaving keeps the invariant; in particular, whenever the
      lock is free while threads are blocked, a woken thread is on its way to
      take it, so no waiter is stranded. */
  lemma {:induction false} RunKeepsInv<V>(m: Lock<V>, ops: seq<Op<V>>)
    requires Inv(m)
    ensures var e := Run(m, ops); Inv(e) && (e.blocked > 0 && !e.held ==> e.woken > 0)
    decreases |ops|
  {
    if ops != [] {
      match Apply(m, ops[0])
      case None =>
      case Some(m') => RunKeepsInv(m', ops[1..]);
    }
  }

  /** `n` rounds of `*m.lock() += 1` by a single thread; stops early if a
      lock would block. */
  function Increments(m: Lock<int>, n: nat): (r: Lock<int>)
    ensures Inv(m) ==> Inv(r)
    decreases n
  {
    if n == 0 then m
    else
      var a := Acquire(m);
      if a.status != Ok then m
      else
        var r := Release(Write(a.next, a.next.value + 1));
        Increments(r.next, n - 1)
  }

  /** The sequential test: from an unlocked mutex, `n` rounds of lock,
      increment, release never block, leave the value increased by exactly
      `n`, and leave the mutex unlocked as before. */
  lemma {:induction false} IncrementsAddN(m: Lock<int>, n: nat)
    requires Inv(m) && m.state == 0
    ensures Increments(m, n) == m.(value := m.value + n)
    decreases n
  {
    if n > 0 {
      var a := Acquire(m);
      var r := Release(Write(a.next, a.next.value + 1));
      assert r.next == m.(value := m.value + 1);
      IncrementsAddN(r.next, n - 1);
    }
  }

  /** Two threads in turn: while one holds the lock, the other blocks and
      marks the word 2; the holder's release wakes it and it then holds the
      lock with the word at 2, so its own release wakes again (possibly
      nobody). */
  lemma ContendedHandOver<V>(v: V)
    ensures var a := Acquire(New(v));
      var b := Acquire(a.next);
      var r := Release(b.next);
      var c := Resume(r.next);
      && a.status == Ok && b.status == Blocked
      && r.reply && r.next.woken == 1
      && c.status == Ok && c.next.state == 2 && c.next.held
      && Release(c.next).reply
  {
  }
}

/** The mutex as an object whose state word the operations update in place. */
module Mutex {
  import opened Machine
  import Spec = MutexSpec

  class Mutex<V> {
    var state: nat
    var value: V
    ghost var held: bool
    ghost var blocked: nat
    ghost var woken: nat

    ghost function Model(): Spec.Lock<V>
      reads this
    {
      Spec.Lock(state, value, held, blocked, woken)
    }

    ghost predicate Valid()
      reads this
    {
      Spec.Inv(Model())
    }

    constructor New(v: V)
      ensures Model() == Spec.New(v) && Valid()
    {
      state := 0;
      value := v;
      held, blocked, woken := false, 0, 0;
    }

    /** The swap to 2 and, unless it saw 0, the wait that blocks. */
    method SwapToContended() returns (status: Status)
      modifies this
      ensures var st := Spec.SwapToContended(old(Model())); status == st.status && Model() == st.next
    {
      var prev := state;
      state := 2;
      if prev == 0 {
        held := true;
        status := Ok;
      } else {
        blocked := blocked + 1;
        status := Blocked;
      }
    }

    method LockContended() returns (status: Status, spins: nat)
      modifies this
      ensures var st := Spec.LockContended(old(Model())); status == st.status && Model() == st.next
      ensures spins == Spec.SpinIterations(old(state))
    {
      spins := 0;
      while state == 1 && spins < 100
        invariant spins <= 100
        invariant state == 1 || spins == 0
        invariant Model() == old(Model())
      {
        spins := spins + 1;
      }
      if state == 0 {
        state := 1;
        held := true;
        status := Ok;
        return;
      }
      status := SwapToContended();
    }

    method Lock() returns (status: Status)
      modifies this
      ensures var st := Spec.Acquire(old(Model())); status == st.status && Model() == st.next
    {
      if state == 0 {
        state := 1;
        held := true;
        status := Ok;
      } else {
        var spins;
        status, spins := LockContended();
      }
    }

    method Resume() returns (status: Status)
      requires woken > 0
      modifies this
      ensures var st := Spec.Resume(old(Model())); status == st.status && Model() == st.next
    {
      woken := woken - 1;
      status := SwapToContended();
    }

    method Unlock() returns (woke: bool)
      requires held
      modifies this
      ensures var st := Spec.Release(old(Model())); woke == st.reply && Model() == st.next
    {
      var prev := state;
      state := 0;
      held := false;
      woke := prev == 2;
      if woke && blocked > 0 {
        blocked := blocked - 1;
        woken := woken + 1;
      }
    }

    method Read() returns (v: V)
      requires held
      ensures v == value
    {
      v := value;
    }

    method Write(v: V)
      requires held
      modifies this
      ensures Model() == Spec.Write(old(Model()), v)
    {
      value := v;
    }
  }

  /** `test_mutex` without the timing: `n` rounds of `*m.lock() += 1`. */
  method IncrementTimes(m: Mutex<int>, n: nat)
    requires m.Valid() && m.state == 0
    modifies m
    ensures m.Valid() && m.Model() == old(m.Model()).(value := old(m.value) + n)
  {
    var i := 0;
    while i < n
      invariant i <= n
      invariant m.Valid()
      invariant m.Model() == old(m.Model()).(value := old(m.value) + i)
    {
      var status := m.Lock();
      var v := m.Read();
      m.Write(v + 1);
      var _ := m.Unlock();
      i := i + 1;
    }
  }
}
