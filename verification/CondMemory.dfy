/** The memory of a pthread_cond_t, field by field, with the flag bits that share
    a word with a counter separated from it, and one function for each atomic
    update the code performs on it. A group slot is named by a Boolean: `false`
    is index 0 and `true` is index 1. CondWords relates these updates to the
    packed 32-bit and 64-bit words of the source. */
module CondMemory {

  /** What is kept per group index: g_refs (count and wake-request flag), g_size,
      and g_signals (count and closed flag). */
  datatype Slot = Slot(refs: int, wake: bool, size: int, signals: int, closed: bool)

  /** next and g2 are the two parts of wseq, start and bit those of g1_start, orig and
      locked those of g1_orig_size, wcount and destroying those of wrefs. */
  datatype Mem = Mem(next: int, g2: bool, start: int, bit: bool, s0: Slot, s1: Slot,
                     orig: int, locked: bool, wcount: int, destroying: bool)

  const EMPTY_SLOT := Slot(0, false, 0, 0, false)

  const INITIAL_MEM := Mem(0, false, 0, false, EMPTY_SLOT, EMPTY_SLOT, 0, false, 0, false)

  function At(m: Mem, g: bool): Slot {
    if g then m.s1 else m.s0
  }

  function Put(m: Mem, g: bool, x: Slot): Mem {
    if g then m.(s1 := x) else m.(s0 := x)
  }

  function TakeSeq(m: Mem): Mem {
    m.(next := m.next + 1)
  }

  function AddWaiters(m: Mem, d: int): Mem {
    m.(wcount := m.wcount + d)
  }

  function AddRefs(m: Mem, g: bool, d: int): Mem {
    Put(m, g, At(m, g).(refs := At(m, g).refs + d))
  }

  function SetWake(m: Mem, g: bool, b: bool): Mem {
    Put(m, g, At(m, g).(wake := b))
  }

  function AddSignals(m: Mem, g: bool, d: int): Mem {
    Put(m, g, At(m, g).(signals := At(m, g).signals + d))
  }

  function SetSize(m: Mem, g: bool, n: int): Mem {
    Put(m, g, At(m, g).(size := n))
  }

  function Close(m: Mem, g: bool): Mem {
    Put(m, g, At(m, g).(closed := true))
  }

  function Reopen(m: Mem, g: bool): Mem {
    Put(m, g, At(m, g).(signals := 0, closed := false))
  }

  function AdvanceStart(m: Mem, n: int): Mem {
    m.(start := m.start + n, bit := !m.bit)
  }

  function FlipRoles(m: Mem): Mem {
    m.(g2 := !m.g2)
  }
}
