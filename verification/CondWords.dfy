/** pthread_cond_t as the source lays it out: 64-bit and 32-bit words that share a counter
    with flag bits, updated in place with the machine's wrap-around. Each method is one
    atomic operation of pthread_cond.h (or one access to a plain word under the inner lock) and is
    proved to do to the unpacked memory what CondMemory says; the bounds it needs are its
    preconditions. */
module CondWords {
  import opened CondMemory

  const TWO_32 := 0x1_0000_0000
  const TWO_64 := 0x1_0000_0000_0000_0000

  predicate U32(x: int) { 0 <= x < TWO_32 }

  predicate U64(x: int) { 0 <= x < TWO_64 }

  function Wrap32(x: int): (r: int)
    ensures U32(r) && (U32(x) ==> r == x)
  {
    x % TWO_32
  }

  function Wrap64(x: int): (r: int)
    ensures U64(r) && (U64(x) ==> r == x)
  {
    x % TWO_64
  }

  /** x | 1, x & ~1 and x ^ 1. */
  function SetLow(x: int): int { x - x % 2 + 1 }

  function ClearLow(x: int): int { x - x % 2 }

  function FlipLow(x: int): int { if x % 2 == 0 then x + 1 else x - 1 }

  function Index(g: bool): nat { if g then 1 else 0 }

  /** The slot that the words of one group index describe. */
  function SlotOf(refs: int, size: int, signals: int): Slot {
    Slot(refs / 2, refs % 2 == 1, size, signals / 2, signals % 2 == 1)
  }

  /** Lines 192-193: what is added to g1_start, in unsigned 32-bit arithmetic. */
  function StartDelta(oldOrig: int, g: bool): int {
    Wrap32(Wrap32(oldOrig * 2) + (if g then 1 else TWO_32 - 1))
  }

  /** The 32-bit expression is twice the size plus or minus one exactly when it does not borrow. */
  lemma StartDeltaExact(oldOrig: int, g: bool)
    requires 0 <= oldOrig < 0x4000_0000
    ensures StartDelta(oldOrig, g) == 2 * oldOrig + (if g then 1 else -1) <==> (g || oldOrig >= 1)
  {
    assert Wrap32(oldOrig * 2) == oldOrig * 2;
    if !g && oldOrig >= 1 {
      assert Wrap32(oldOrig * 2 - 1 + TWO_32) == oldOrig * 2 - 1;
    }
  }

  /** Lines 171-173: the test for an empty G2. */
  function EmptyTest(rd: int, start: int, orig: int, size: int): int {
    Wrap32(Wrap32(rd - start - orig) + size)
  }

  /** The 32-bit test for an empty G2 is exact: it is zero just when the signaler saw no waiter after
      G1 and the size of G2 is zero. */
  lemma EmptyTestExact(rd: int, start: int, orig: int, size: int)
    requires 0 <= rd - start - orig < 0x8000_0000 && 0 <= size < 0x8000_0000
    ensures EmptyTest(rd, start, orig, size) == 0 <==> rd - start - orig + size == 0
  {
  }

  /** The wrefs word from its two parts. */
  lemma WrefsParts(w: int)
    requires w >= 0 && w % 4 == 0
    ensures w == 8 * (w / 8) + 4 * (w / 4 % 2)
  {
    var h := w / 4;
    assert w == 4 * h && w / 8 == h / 2;
  }

  /** Setting the destroying flag. */
  lemma WrefsFlag(w: int)
    requires U32(w) && w % 4 == 0 && w / 4 % 2 == 0
    ensures U32(w + 4) && (w + 4) % 4 == 0 && (w + 4) / 4 % 2 == 1 && (w + 4) / 8 == w / 8
  {
    WrefsParts(w);
  }

  class CondVar {
    var wseq: int
    var g1Start: int
    const gRefs: array<int>
    const gSize: array<int>
    var g1OrigSize: int
    var wrefs: int
    const gSignals: array<int>

    ghost predicate Valid()
      reads this, gRefs, gSize, gSignals
    {
      && gRefs.Length == 2 && gSize.Length == 2 && gSignals.Length == 2
      && gRefs != gSize && gRefs != gSignals && gSize != gSignals
      && U64(wseq) && U64(g1Start) && U32(g1OrigSize) && U32(wrefs) && wrefs % 4 == 0
      && U32(gRefs[0]) && U32(gRefs[1]) && U32(gSize[0]) && U32(gSize[1]) && U32(gSignals[0]) && U32(gSignals[1])
    }

    /** The memory the words stand for. */
    ghost function View(): Mem
      requires Valid()
      reads this, gRefs, gSize, gSignals
    {
      Mem(wseq / 2, wseq % 2 == 1, g1Start / 2, g1Start % 2 == 1,
          SlotOf(gRefs[0], gSize[0], gSignals[0]), SlotOf(gRefs[1], gSize[1], gSignals[1]),
          g1OrigSize / 4, g1OrigSize % 4 != 0, wrefs / 8, wrefs / 4 % 2 == 1)
    }

    /** pthread_cond_init. */
    constructor ()
      ensures Valid() && fresh(gRefs) && fresh(gSize) && fresh(gSignals)
      ensures View() == INITIAL_MEM
    {
      wseq, g1Start, g1OrigSize, wrefs := 0, 0, 0, 0;
      gRefs, gSize, gSignals := new int[2](_ => 0), new int[2](_ => 0), new int[2](_ => 0);
    }

    // ---------- wseq ----------

    /** Line 85. */
    method FetchAddWseq() returns (old_: int)
      requires Valid() && View().next < TWO_64 / 2 - 1
      modifies this`wseq
      ensures Valid() && View() == TakeSeq(old(View()))
      ensures old_ / 2 == old(View()).next && (old_ % 2 == 1) == old(View()).g2
    {
      old_ := wseq;
      wseq := Wrap64(wseq + 2);
    }

    /** Line 199. */
    method FetchXorWseq() returns (sq: int)
      requires Valid()
      modifies this`wseq
      ensures Valid() && View() == FlipRoles(old(View())) && sq == old(View()).next
    {
      sq := wseq / 2;
      wseq := FlipLow(wseq);
    }

    // ---------- wrefs ----------

    /** Line 91. */
    method FetchAddWrefs()
      requires Valid() && View().wcount < TWO_32 / 8 - 1
      modifies this`wrefs
      ensures Valid() && View() == AddWaiters(old(View()), 1)
    {
      wrefs := Wrap32(wrefs + 8);
    }

    /** Lines 149-153. */
    method FetchSubWrefs() returns (wakeDestroyer: bool)
      requires Valid() && View().wcount >= 1
      modifies this`wrefs
      ensures Valid() && View() == AddWaiters(old(View()), -1)
      ensures wakeDestroyer <==> old(View()).destroying && old(View()).wcount == 1
    {
      var o := Wrap32(wrefs - 8);
      wrefs := Wrap32(wrefs - 8);
      wakeDestroyer := o / 4 % 2 != 0 && o / 8 == 0;
    }

    /** Lines 59-60. */
    method FetchOrDestroying() returns (w: int)
      requires Valid()
      modifies this`wrefs
      ensures Valid() && View() == old(View()).(destroying := true)
      ensures w / 8 == old(View()).wcount && w / 4 % 2 == 1 && w == wrefs
    {
      if wrefs / 4 % 2 == 0 {
        WrefsFlag(wrefs);
        wrefs := wrefs + 4;
      }
      w := wrefs;
    }

    // ---------- g_refs ----------

    /** Line 109. */
    method TakeRef(g: bool)
      requires Valid() && At(View(), g).refs < TWO_32 / 2 - 1
      modifies gRefs
      ensures Valid() && View() == AddRefs(old(View()), g, 1)
    {
      gRefs[Index(g)] := Wrap32(gRefs[Index(g)] + 2);
    }

    /** Lines 74-75: adding minus two wraps around to a decrement; the comparison with three picks the
        last reference of a group somebody quiesces. */
    method DropRef(g: bool) returns (last: bool)
      requires Valid() && At(View(), g).refs >= 1
      modifies gRefs
      ensures Valid() && View() == AddRefs(old(View()), g, -1)
      ensures last <==> At(old(View()), g).refs == 1 && At(old(View()), g).wake
    {
      last := gRefs[Index(g)] == 2 + 1;
      gRefs[Index(g)] := Wrap32(gRefs[Index(g)] + (TWO_32 - 2));
    }

    /** Line 76. */
    method ClearWake(g: bool)
      requires Valid()
      modifies gRefs
      ensures Valid() && View() == SetWake(old(View()), g, false)
    {
      gRefs[Index(g)] := ClearLow(gRefs[Index(g)]);
    }

    /** Line 183. */
    method RequestWake(g: bool) returns (r: int)
      requires Valid()
      modifies gRefs
      ensures Valid() && View() == SetWake(old(View()), g, true)
      ensures r / 2 == At(old(View()), g).refs && r % 2 == 1
    {
      r := SetLow(gRefs[Index(g)]);
      gRefs[Index(g)] := SetLow(gRefs[Index(g)]);
    }

    // ---------- g_signals and g_size ----------

    /** Lines 122 and 137: a weak compare-and-exchange that takes one signal or puts one back. The
        comparison of whole words succeeds only on an open slot with the count that was seen. */
    method CasSignals(g: bool, expected: int, put: bool, spurious: bool) returns (ok: bool, seen: int)
      requires Valid() && U32(expected) && expected % 2 == 0
      requires if put then expected < TWO_32 - 2 else expected >= 2
      modifies gSignals
      ensures Valid()
      ensures ok <==> !spurious && !At(old(View()), g).closed && At(old(View()), g).signals == expected / 2
      ensures View() == if ok then AddSignals(old(View()), g, if put then 1 else -1) else old(View())
      ensures !ok ==> seen / 2 == At(View(), g).signals && (seen % 2 == 1) == At(View(), g).closed
    {
      seen := gSignals[Index(g)];
      ok := !spurious && seen == expected;
      if ok {
        gSignals[Index(g)] := Wrap32(if put then expected + 2 else expected - 2);
      }
    }

    /** Lines 230-231: one signal is posted and the size of the group goes down. */
    method PostOne(g: bool)
      requires Valid() && At(View(), g).signals < TWO_32 / 2 - 1 && At(View(), g).size >= 1
      modifies gSignals, gSize
      ensures Valid()
      ensures View() == SetSize(AddSignals(old(View()), g, 1), g, At(old(View()), g).size - 1)
    {
      gSignals[Index(g)] := Wrap32(gSignals[Index(g)] + 2);
      gSize[Index(g)] := Wrap32(gSize[Index(g)] - 1);
    }

    /** Lines 257-258 and 264-265: all remaining members are signaled at once. */
    method PostAll(g: bool)
      requires Valid() && At(View(), g).signals + At(View(), g).size < TWO_32 / 2
      modifies gSignals, gSize
      ensures Valid()
      ensures View() == SetSize(AddSignals(old(View()), g, At(old(View()), g).size), g, 0)
    {
      gSignals[Index(g)] := Wrap32(gSignals[Index(g)] + Wrap32(gSize[Index(g)] * 2));
      gSize[Index(g)] := 0;
    }

    /** Line 178. */
    method CloseGroup(g: bool)
      requires Valid()
      modifies gSignals
      ensures Valid() && View() == Close(old(View()), g)
    {
      gSignals[Index(g)] := SetLow(gSignals[Index(g)]);
    }

    /** Line 196. */
    method ReopenSlot(g: bool)
      requires Valid()
      modifies gSignals
      ensures Valid() && View() == Reopen(old(View()), g)
    {
      gSignals[Index(g)] := 0;
    }

    // ---------- the switch ----------

    /** Lines 192-193. The caller's facts (the slot is G1 by g1_start, and only the empty first group has
        index 1) rule the borrow out. */
    method FetchAddStart(oldOrig: int, g: bool)
      requires Valid() && 0 <= oldOrig < 0x4000_0000 && View().start + oldOrig < TWO_64 / 2 - 1
      requires g == !View().bit && (g || oldOrig >= 1)
      modifies this`g1Start
      ensures Valid() && View() == AdvanceStart(old(View()), oldOrig)
    {
      StartDeltaExact(oldOrig, g);
      g1Start := Wrap64(g1Start + StartDelta(oldOrig, g));
    }

    /** Lines 202-203. */
    method AddGroupSize(g: bool, sx: int, os: int, oo: int)
      requires Valid() && 0 <= sx - os - oo && At(View(), g).size + sx - os - oo < TWO_32
      modifies gSize
      ensures Valid()
      ensures View() == SetSize(old(View()), g, At(old(View()), g).size + sx - os - oo)
    {
      gSize[Index(g)] := Wrap32(gSize[Index(g)] + Wrap32(sx - os - oo));
    }

    /** Lines 206-209: one round of the loop that installs the new original size and leaves the lock
        bits of the word as they are. */
    method CasOrigSize(expected: int, size: int, spurious: bool) returns (ok: bool, seen: int)
      requires Valid() && U32(expected) && 0 <= size < 0x4000_0000
      modifies this`g1OrigSize
      ensures Valid() && g1OrigSize % 4 == old(g1OrigSize) % 4
      ensures ok <==> !spurious && expected == old(g1OrigSize)
      ensures View() == if ok then old(View()).(orig := size) else old(View())
      ensures !ok ==> seen == g1OrigSize
    {
      seen := g1OrigSize;
      ok := !spurious && seen == expected;
      if ok {
        g1OrigSize := Wrap32(size * 4) + expected % 4;
      }
    }

    // ---------- what the loads and futex comparisons decide ----------

    /** Lines 101, 105, 110 and 116: the tests of a g_signals word. */
    method LoadSignals(g: bool) returns (v: int)
      requires Valid()
      ensures U32(v)
      ensures v % 2 != 0 <==> At(View(), g).closed
      ensures v % 2 == 0 ==> v / 2 == At(View(), g).signals
      ensures v == 0 <==> !At(View(), g).closed && At(View(), g).signals == 0
    {
      v := gSignals[Index(g)];
    }

    /** Line 111. */
    method IsPastStart(pos: int) returns (past: bool)
      requires Valid()
      ensures past <==> pos < View().start
    {
      past := pos < g1Start / 2;
    }

    /** Lines 127-131: the group of the waiter is closed and G1 uses its slot. */
    method MayHaveStolen(pos: int, g: bool) returns (w: int, repair: bool)
      requires Valid()
      ensures w == g1Start
      ensures repair <==> pos < View().start && g == !View().bit
    {
      w := g1Start;
      repair := pos < w / 2 && 1 - w % 2 == Index(g);
    }

    /** Line 185: the quiescer sleeps just if the count is still the one it saw and the flag still set. */
    method FutexCompareRefs(g: bool, r: int) returns (sleeps: bool)
      requires Valid() && U32(r) && r % 2 == 1
      ensures sleeps <==> At(View(), g).refs == r / 2 && At(View(), g).wake
    {
      sleeps := gRefs[Index(g)] == r;
    }

    /** Line 64: the destroyer sleeps just if the count is still the one it saw. */
    method FutexCompareWrefs(w: int) returns (sleeps: bool)
      requires Valid() && U32(w) && w / 4 % 2 == 1 && w % 4 == 0
      ensures sleeps <==> View().wcount == w / 8 && View().destroying
    {
      WrefsParts(w);
      WrefsParts(wrefs);
      sleeps := wrefs == w;
    }
  }
}
