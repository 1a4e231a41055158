/** The reader-writer lock of `ch9_locks/rwlock.rs`. One `u32` word,
    `reader_counters`, holds twice the number of readers plus 1 while a writer
    waits, or `u32::MAX` while write-locked; a second word,
    `writer_wake_counter`, is what a waiting writer sleeps on. */
module RwlockSpec {
  import opened Machine

  /** Message of the `assert!` in `read`. */
  const TOO_MANY_READERS := "too many readers"

  /** The two words, the protected value, and the live guards (bookkeeping of
      the model): how many read guards, whether a write guard. */
  datatype RwState<V> = RwState(readerCounters: nat, writerWakeCounter: nat, value: V,
                                readers: nat, writer: bool)

  /** The representation invariant. A write guard holds the word at
      `u32::MAX` with no reader; otherwise the word halved is the number of
      read guards. The wake counter stays 0: releasing it with `fetch_and(1)`
      never changes 0. */
  predicate Inv<V>(s: RwState<V>) {
    && s.readerCounters <= U32_MAX
    && s.writerWakeCounter == 0
    && (s.writer ==> s.readerCounters == U32_MAX && s.readers == 0)
    && (!s.writer ==> s.readerCounters / 2 == s.readers)
  }

  /** `Rwlock::new`: both words 0, no guard. */
  function New<V>(v: V): (s: RwState<V>)
    ensures Inv(s) && s.readerCounters == 0 && s.writerWakeCounter == 0
    ensures s.readers == 0 && !s.writer && s.value == v
  {
    RwState(0, 0, v, 0, false)
  }

  /** `read`: on an even word, assert it is below `u32::MAX - 2` and add 2;
      on an odd word, wait on `reader_counters`, which blocks in a sequential
      run. */
  function Read<V>(s: RwState<V>): (st: Step<(), RwState<V>>)
    ensures st.status == Ok <==> s.readerCounters % 2 == 0 && s.readerCounters < U32_MAX - 2
    ensures st.status == Ok ==> st.next == s.(readerCounters := s.readerCounters + 2, readers := s.readers + 1)
    ensures s.readerCounters % 2 == 1 ==> st.status == Blocked && st.next == s
    ensures s.readerCounters % 2 == 0 && s.readerCounters >= U32_MAX - 2 ==>
      st.status == Panicked(TOO_MANY_READERS) && st.next == s
    ensures Inv(s) ==> Inv(st.next)
  {
    var current := s.readerCounters;
    if current % 2 == 0 then
      if current < U32_MAX - 2 then
        Step(Ok, (), s.(readerCounters := current + 2, readers := s.readers + 1))
      else Step(Panicked(TOO_MANY_READERS), (), s)
    else Step(Blocked, (), s)
  }

  /** `write`: a word of at most 1 is swapped to `u32::MAX`; an even word
      above 1 gets the writer-waiting bit; then the writer waits on
      `writer_wake_counter` while the word is above 2, which blocks in a
      sequential run. A woken writer starts over, which is `Write` again. */
  function Write<V>(s: RwState<V>): (st: Step<(), RwState<V>>)
    ensures st.status == Ok <==> s.readerCounters <= 1
    ensures st.status == Ok ==> st.next == s.(readerCounters := U32_MAX, writer := true)
    ensures st.status != Ok ==> st.status == Blocked && st.next.readerCounters > 2
    ensures s.readerCounters > 1 && s.readerCounters % 2 == 0 ==>
      st.next == s.(readerCounters := s.readerCounters + 1)
    ensures s.readerCounters > 1 && s.readerCounters % 2 == 1 ==> st.next == s
    ensures Inv(s) ==> Inv(st.next)
  {
    var current := s.readerCounters;
    if current <= 1 then Step(Ok, (), s.(readerCounters := U32_MAX, writer := true))
    else
      var marked := if current % 2 == 0 then s.(readerCounters := current + 1) else s;
      Step(Blocked, (), marked)
  }

  /** `Drop for ReadGuard`: `fetch_sub(2)`; when the previous value was 3 (the
      last reader leaves while a writer waits) `fetch_and(1)` on the wake
      counter and wake one writer. The reply says whether it woke a writer. */
  function ReadRelease<V>(s: RwState<V>): (st: Step<bool, RwState<V>>)
    requires s.readers > 0 && s.readerCounters <= U32_MAX
    ensures st.status == Ok
    ensures st.reply <==> s.readerCounters == 3
    ensures s.readerCounters >= 2 ==> st.next.readerCounters == s.readerCounters - 2
    ensures st.next.readers == s.readers - 1 && st.next.writer == s.writer && st.next.value == s.value
    ensures Inv(s) ==> Inv(st.next) && st.next.writerWakeCounter == s.writerWakeCounter
  {
    var prev := s.readerCounters;
    var s1 := s.(readerCounters := U32Sub(prev, 2), readers := s.readers - 1);
    if prev == 3 then Step(Ok, true, s1.(writerWakeCounter := s.writerWakeCounter % 2))
    else Step(Ok, false, s1)
  }

  /** `Drop for WriteGuard`: store 0, then wake one writer and all readers. */
  function WriteRelease<V>(s: RwState<V>): (st: Step<(), RwState<V>>)
    requires s.writer
    ensures st.status == Ok && st.next == s.(readerCounters := 0, writer := false)
    ensures Inv(s) ==> Inv(st.next) && st.next.readers == 0
  {
    Step(Ok, (), s.(readerCounters := 0, writer := false))
  }

  /** `DerefMut for WriteGuard`: the write guard's holder writes the value. */
  function WriteValue<V>(s: RwState<V>, v: V): (s': RwState<V>)
    requires s.writer
    ensures s' == s.(value := v)
    ensures Inv(s) ==> Inv(s')
  {
    s.(value := v)
  }

  /** Shared xor exclusive: a write guard never coexists with a read guard,
      and an odd word (a waiting writer, or a write lock) grants no reader. */
  lemma Exclusion<V>(s: RwState<V>)
    requires Inv(s)
    ensures !(s.writer && s.readers > 0)
    ensures s.readerCounters % 2 == 1 ==> Read(s).status == Blocked
    ensures s.writer ==> Read(s).status == Blocked && Write(s).status == Blocked
    ensures s.readers > 0 ==> Write(s).status == Blocked
  {
  }

  /** The word is `u32::MAX` when a write guard is live, and in one more
      state: 2^31 - 1 read guards with the writer-waiting bit set, whose
      encoding coincides with the write lock's. */
  lemma MaxWord<V>(s: RwState<V>)
    requires Inv(s)
    ensures s.readerCounters == U32_MAX <==> s.writer || (s.readers == U32_MAX / 2 && s.readerCounters % 2 == 1)
  {
  }

  /** That second state is reached: with `u32::MAX - 3` as the word (the
      largest even word `read` accepts), one more reader and then a writer
      setting its waiting bit bring the word to `u32::MAX` with no write guard. */
  lemma MaxWordWithoutWriter<V>(v: V)
    ensures var s := RwState(U32_MAX - 3, 0, v, (U32_MAX - 3) / 2, false);
      var r := Read(s);
      var w := Write(r.next);
      && Inv(s) && r.status == Ok && w.status == Blocked
      && w.next.readerCounters == U32_MAX && !w.next.writer && w.next.readers == U32_MAX / 2
      && Inv(w.next)
  {
  }

  /** The writer-preferring hand-over: two readers, a writer arrives and
      marks itself waiting, a new reader is then turned away, the first
      reader's release wakes nobody, the last reader's release wakes the
      writer, which then acquires; its release returns the word to 0. */
  lemma WriterHandOver<V>(v: V)
    ensures var r1 := Read(New(v)).next;
      var r2 := Read(r1).next;
      var w1 := Write(r2);
      var r3 := Read(w1.next);
      var d1 := ReadRelease(w1.next);
      var d2 := ReadRelease(d1.next);
      var w2 := Write(d2.next);
      && r2.readerCounters == 4 && w1.status == Blocked && w1.next.readerCounters == 5
      && r3.status == Blocked
      && !d1.reply && d2.reply && d2.next.readerCounters == 1
      && w2.status == Ok && w2.next.writer
      && WriteRelease(w2.next).next.readerCounters == 0
  {
  }

  /** The wait at the end of a `write` turn, on `writer_wake_counter` with
      the value `seen` loaded before the word was re-checked: a futex wait
      sleeps only while the word still holds that value, and returns at once
      otherwise, so that the writer starts over. */
  function WriterWait<V>(s: RwState<V>, seen: nat): (st: Step<(), RwState<V>>)
    ensures st.next == s
    ensures st.status == Blocked <==> s.writerWakeCounter == seen
    ensures st.status != Blocked ==> st.status == Ok
  {
    if s.writerWakeCounter == seen then Step(Blocked, (), s) else Step(Ok, (), s)
  }

  /** Because the wake counter never changes, a wake can be lost. A writer
      finds one reader, sets the waiting bit, loads the wake counter (0) and
      sees the word above 2; the reader then leaves, taking the word to 1 and
      waking (`reply`) before the writer sleeps; the writer's wait still
      finds 0 and sleeps, although `write` would now succeed, and readers
      are held off by the odd word. */
  lemma LostWriterWakeup<V>(v: V)
    ensures var held := Read(New(v)).next;
      var marked := Write(held);
      var seen := marked.next.writerWakeCounter;
      var left := ReadRelease(marked.next);
      && marked.status == Blocked && marked.next.readerCounters == 3
      && left.reply && left.next.readerCounters == 1 && left.next.writerWakeCounter == seen
      && WriterWait(left.next, seen).status == Blocked
      && Write(left.next).status == Ok
      && Read(left.next).status == Blocked
      && Run(New(v), [ReadLock, WriteLock, ReadUnlock]) == left.next
  {
  }

  /** Whatever state, the wake counter is the same after a read guard's
      release as before, so a wait with a value loaded before the release
      sleeps after it. */
  lemma ReleaseNeverChangesWakeCounter<V>(s: RwState<V>)
    requires Inv(s) && s.readers > 0
    ensures WriterWait(ReadRelease(s).next, s.writerWakeCounter).status == Blocked
  {
  }

  datatype Op = ReadLock | WriteLock | ReadUnlock | WriteUnlock

  /** One operation by a thread; None when it panics, has no guard to
      release, or is a `read` that blocks (which changes nothing). A `write`
      that blocks has already set the writer-waiting bit, so its state is
      the next one; calling it again is the writer starting over. */
  function Apply<V>(s: RwState<V>, op: Op): (r: Option<RwState<V>>)
    requires Inv(s)
    ensures r.Some? ==> Inv(r.value)
  {
    match op
    case ReadLock => if Read(s).status == Ok then Some(Read(s).next) else None
    case WriteLock => Some(Write(s).next)
    case ReadUnlock => if s.readers > 0 then Some(ReadRelease(s).next) else None
    case WriteUnlock => if s.writer then Some(WriteRelease(s).next) else None
  }

  /** A single-threaded run: operations in order, until one cannot proceed. */
  function Run<V>(s: RwState<V>, ops: seq<Op>): RwState<V>
    requires Inv(s)
    decreases |ops|
  {
    if ops == [] then s
    else match Apply(s, ops[0])
      case None => s
      case Some(s') => Run(s', ops[1..])
  }

  /** From `Rwlock::new`, whatever the operations, the representation
      invariant holds and readers and the writer exclude each other. */
  lemma {:induction false} RunKeepsInv<V>(s: RwState<V>, ops: seq<Op>)
    requires Inv(s)
    ensures Inv(Run(s, ops)) && !(Run(s, ops).writer && Run(s, ops).readers > 0)
    decreases |ops|
  {
    if ops != [] {
      match Apply(s, ops[0])
      case None =>
      case Some(s') => RunKeepsInv(s', ops[1..]);
    }
  }
}

/** The lock as an object whose two words the operations update in place. */
module Rwlock {
  import opened Machine
  import Spec = RwlockSpec

  class Rwlock<V> {
    var readerCounters: nat
    var writerWakeCounter: nat
    var value: V
    ghost var readers: nat
    ghost var writer: bool

    ghost function Model(): Spec.RwState<V>
      reads this
    {
      Spec.RwState(readerCounters, writerWakeCounter, value, readers, writer)
    }

    ghost predicate Valid()
      reads this
    {
      Spec.Inv(Model())
    }

    constructor New(v: V)
      ensures Model() == Spec.New(v) && Valid()
    {
      readerCounters, writerWakeCounter := 0, 0;
      value := v;
      readers, writer := 0, false;
    }

    method Read() returns (status: Status)
      modifies this
      ensures var st := Spec.Read(old(Model())); status == st.status && Model() == st.next
    {
      var current := readerCounters;
      if current % 2 == 0 {
        if !(current < U32_MAX - 2) {
          return Panicked(Spec.TOO_MANY_READERS);
        }
        readerCounters := current + 2;
        readers := readers + 1;
        return Ok;
      }
      status := Blocked;
    }

    method Write() returns (status: Status)
      modifies this
      ensures var st := Spec.Write(old(Model())); status == st.status && Model() == st.next
    {
      var current := readerCounters;
      if current <= 1 {
        readerCounters := U32_MAX;
        writer := true;
        return Ok;
      }
      if current % 2 == 0 {
        readerCounters := current + 1;
      }
      status := Blocked;
    }

    method ReadUnlock() returns (woke: bool)
      requires readers > 0 && readerCounters <= U32_MAX
      modifies this
      ensures var st := Spec.ReadRelease(old(Model())); woke == st.reply && Model() == st.next
    {
      var prev := readerCounters;
      readerCounters := U32Sub(prev, 2);
      readers := readers - 1;
      woke := prev == 3;
      if woke {
        writerWakeCounter := writerWakeCounter % 2;
      }
    }

    method WriteUnlock()
      requires writer
      modifies this
      ensures Model() == Spec.WriteRelease(old(Model())).next
    {
      readerCounters := 0;
      writer := false;
    }

    method ReadValue() returns (v: V)
      requires readers > 0 || writer
      ensures v == value
    {
      v := value;
    }

    method WriteValue(v: V)
      requires writer
      modifies this
      ensures Model() == Spec.WriteValue(old(Model()), v)
    {
      value := v;
    }
  }
}
