/** pthread_cond.h as an interleaving of atomic steps. Any number of threads run
    pthread_cond_wait, _signal, _broadcast and _destroy on one condition variable;
    each atomic macro and each futex call is one step, weak compare-and-exchange may
    fail spuriously and a futex wait may return spuriously. The inner lock is used by
    its contract (see ThreeStateLock); memory is sequentially consistent. */
module CondProtocol {
  import opened CondMemory

  /** Progress of the one thread that may be switching the groups; a history variable. */
  datatype Phase = Open | Closing | Drained | Advanced | Reopened | Flipped | Sized

  /** The words of the condition variable and the history of the run: `cut` is the
      first sequence number of the group that is not G1, `total` counts the signals posted
      (without repairs), `taken` counts the signals that members took from the current G1
      and `extra` those that it got without having been posted to it; `stray` counts those that
      members of G1 took before it was G1, `early` those that members of G2 have taken. */
  datatype Shared = Shared(m: Mem, cut: int, total: int, taken: int, extra: int, stray: int, early: int,
                           phase: Phase)

  /** A value of the g1_start word. */
  datatype StartWord = StartWord(start: int, bit: bool)

  function Current(sh: Shared): StartWord {
    StartWord(sh.m.start, sh.m.bit)
  }

  /** The number the g1_start word holds. */
  function Rank(w: StartWord): int {
    2 * w.start + if w.bit then 1 else 0
  }

  datatype Op = Signal | Broadcast

  datatype Wakes = NoWake | WakesOne | WakesAll

  /** Where a thread inside pthread_cond_wait is, with the locals that are still needed. */
  datatype WaiterPc =
    | Registered                                                  // 91
    | Load                                                        // 97, 120
    | TakeRef                                                     // 109
    | CheckClosed                                                 // 110
    | CheckStart                                                  // 111
    | Futex                                                       // 116
    | Asleep                                                      // inside the futex call of 116
    | Dec(leave: bool)                                            // 74, from 112 or 118
    | ClearFlag(leave: bool)                                      // 76
    | WakeQuiescer(leave: bool)                                   // 77
    | Consume(v: int)                                             // 122
    | Consumed(ep: StartWord)                                     // 127
    | ReloadSignals(ep: StartWord, w: StartWord)                  // 132
    | RepairTest(ep: StartWord, w: StartWord, s: int, sc: bool)   // 133
    | RepairCas(ep: StartWord, w: StartWord, s: int, sc: bool)    // 136-138
    | RepairWake                                                  // 139
    | Leave(took: bool)                                           // 149

  /** Where a signaler or broadcaster that holds the inner lock is. */
  datatype SignalerPc =
    | Post                                    // 230-231
    | PostRest                                // 257-258
    | WakeRest                                // 259
    | Test                                    // 169-174
    | CloseG1(os: int, oo: int)               // 178
    | ReadRefs(os: int, oo: int)              // 181
    | SetFlag(os: int, oo: int)               // 183
    | QFutex(os: int, oo: int, r: int)        // 185
    | QAsleep(os: int, oo: int)               // inside the futex call of 185
    | Reload(os: int, oo: int)                // 186
    | Advance(os: int, oo: int)               // 192
    | ReopenSlot(os: int, oo: int)            // 196
    | Flip(os: int, oo: int)                  // 199
    | AddSize(os: int, oo: int, sx: int)      // 202-203
    | SetOrig(os: int, oo: int, sx: int)      // 205-210
    | PostAll                                 // 264-266
    | Unlock(wakes: Wakes)                    // 235, 269

  datatype DestroyerPc =
    | SetDestroying       // 59
    | DFutex(r: int)      // 64
    | DAsleep             // inside the futex call of 64
    | DLoad               // 65

  /** One thread. `pos` and `g` are the waiter's place, `rd` the value of wseq >> 1 that
      the signaler read and `g` the slot it takes for G1. */
  datatype Local =
    | Idle
    | Waiter(w: WaiterPc, pos: int, g: bool)
    | WakeDestroyer                              // 154
    | Fast(op: Op)                               // 217, 243
    | Acquire(op: Op)                            // 220, 246
    | ReadSeq(op: Op)                            // 222-228, 248-256
    | Signaler(s: SignalerPc, op: Op, rd: int, g: bool)
    | Waking(g: bool, all: bool)                 // 238, 272
    | Destroyer(d: DestroyerPc)

  datatype State = State(sh: Shared, ths: seq<Local>)

  /** What the scheduler decides in a step: which call an idle thread makes, and whether
      a weak compare-and-exchange fails although the values agree. */
  datatype Call = CallWait | CallSignal | CallBroadcast | CallDestroy
  datatype Choice = Choice(call: Call, fail: bool)

  /** The new shared state and the acting thread's new local state. */
  datatype Out = Out(sh: Shared, l: Local)

  /** Lines 101-108: what a waiter does with a value of g_signals it has loaded. */
  function Branch(x: Slot, pos: int, g: bool): Local {
    if x.closed then Waiter(Leave(false), pos, g)
    else if x.signals != 0 then Waiter(Consume(x.signals), pos, g)
    else Waiter(TakeRef, pos, g)
  }

  /** Where dec_grefs returns to. */
  function AfterDec(leave: bool, pos: int, g: bool): Local {
    if leave then Waiter(Leave(false), pos, g) else Waiter(Load, pos, g)
  }

  /** The slot that plays G1 according to the g1_start word. */
  function G1(sh: Shared): bool {
    !sh.m.bit
  }

  /** Whether a waiter that took a signal while g1_start was `ep` took it from the current
      G1 without being a member of it. */
  predicate Owes(cur: StartWord, ep: StartWord, pos: int, g: bool) {
    ep == cur && pos < cur.start && g == !cur.bit
  }

  function Took(sh: Shared, pos: int, g: bool): Shared {
    var sh' := sh.(m := AddSignals(sh.m, g, -1));
    if pos < sh.m.start then sh'
    else if g == G1(sh) then sh'.(taken := sh.taken + 1)
    else sh'.(early := sh.early + 1)
  }

  function Repaired(sh: Shared, ep: StartWord, pos: int, g: bool): Shared {
    var sh' := sh.(m := AddSignals(sh.m, g, 1));
    if g == G1(sh) && !Owes(Current(sh), ep, pos, g) then sh'.(extra := sh.extra + 1) else sh'
  }

  /** The steps of pthread_cond_wait and dec_grefs. */
  function ActWaiter(sh: Shared, pc: WaiterPc, pos: int, g: bool, c: Choice): Out {
    var x := At(sh.m, g);
    match pc
    case Registered => Out(sh.(m := AddWaiters(sh.m, 1)), Waiter(Load, pos, g))
    case Load => Out(sh, Branch(x, pos, g))
    case TakeRef => Out(sh.(m := AddRefs(sh.m, g, 1)), Waiter(CheckClosed, pos, g))
    case CheckClosed => Out(sh, Waiter(if x.closed then Dec(true) else CheckStart, pos, g))
    case CheckStart => Out(sh, Waiter(if pos < sh.m.start then Dec(true) else Futex, pos, g))
    case Futex => Out(sh, Waiter(if x.signals == 0 && !x.closed then Asleep else Dec(false), pos, g))
    case Asleep => Out(sh, Waiter(Dec(false), pos, g))
    case Dec(leave) =>
      Out(sh.(m := AddRefs(sh.m, g, -1)),
          if x.refs == 1 && x.wake then Waiter(ClearFlag(leave), pos, g) else AfterDec(leave, pos, g))
    case ClearFlag(leave) => Out(sh.(m := SetWake(sh.m, g, false)), Waiter(WakeQuiescer(leave), pos, g))
    case WakeQuiescer(leave) => Out(sh, AfterDec(leave, pos, g))
    case Consume(v) =>
      if !c.fail && !x.closed && x.signals == v
      then Out(Took(sh, pos, g), Waiter(Consumed(Current(sh)), pos, g))
      else Out(sh, Branch(x, pos, g))
    case Consumed(ep) =>
      Out(sh, Waiter(if pos < sh.m.start && g == G1(sh) then ReloadSignals(ep, Current(sh)) else Leave(true), pos, g))
    case ReloadSignals(ep, w) => Out(sh, Waiter(RepairTest(ep, w, x.signals, x.closed), pos, g))
    case RepairTest(ep, w, s, sc) =>
      Out(sh, Waiter(if Current(sh) == w then RepairCas(ep, w, s, sc) else Leave(true), pos, g))
    case RepairCas(ep, w, s, sc) =>
      if sc then Out(sh, Waiter(RepairWake, pos, g))
      else if !c.fail && !x.closed && x.signals == s
      then Out(Repaired(sh, ep, pos, g), Waiter(RepairWake, pos, g))
      else Out(sh, Waiter(RepairTest(ep, w, x.signals, x.closed), pos, g))
    case RepairWake => Out(sh, Waiter(Leave(true), pos, g))
    case Leave(took) =>
      Out(sh.(m := AddWaiters(sh.m, -1)),
          if sh.m.destroying && sh.m.wcount == 1 then WakeDestroyer else Idle)
  }

  function Posted(sh: Shared, g: bool, n: int): Shared {
    sh.(m := SetSize(AddSignals(sh.m, g, n), g, At(sh.m, g).size - n), total := sh.total + n)
  }

  /** The steps of signal and broadcast between taking and releasing the inner lock,
      with those of quiesce_and_switch_g1. */
  function ActSignaler(sh: Shared, pc: SignalerPc, op: Op, rd: int, g: bool, c: Choice): Out {
    var x := At(sh.m, g);
    match pc
    case Post => Out(Posted(sh, g, 1), Signaler(Unlock(WakesOne), op, rd, g))
    case PostRest => Out(Posted(sh, g, x.size), Signaler(WakeRest, op, rd, g))
    case WakeRest => Out(sh, Signaler(Test, op, rd, g))
    case Test =>
      Out(sh, Signaler(if rd - sh.m.start - sh.m.orig + At(sh.m, !g).size == 0
                       then Unlock(NoWake) else CloseG1(sh.m.start, sh.m.orig), op, rd, g))
    case CloseG1(os, oo) =>
      Out(sh.(m := Close(sh.m, g), phase := Closing), Signaler(ReadRefs(os, oo), op, rd, g))
    case ReadRefs(os, oo) =>
      if x.refs != 0 then Out(sh, Signaler(SetFlag(os, oo), op, rd, g))
      else Out(sh.(phase := Drained), Signaler(Advance(os, oo), op, rd, g))
    case SetFlag(os, oo) =>
      Out(sh.(m := SetWake(sh.m, g, true)),
          Signaler(if x.refs != 0 then QFutex(os, oo, x.refs) else Reload(os, oo), op, rd, g))
    case QFutex(os, oo, r) =>
      Out(sh, Signaler(if x.refs == r && x.wake then QAsleep(os, oo) else Reload(os, oo), op, rd, g))
    case QAsleep(os, oo) => Out(sh, Signaler(Reload(os, oo), op, rd, g))
    case Reload(os, oo) =>
      if x.refs != 0 then Out(sh, Signaler(SetFlag(os, oo), op, rd, g))
      else Out(sh.(phase := Drained), Signaler(Advance(os, oo), op, rd, g))
    case Advance(os, oo) =>
      Out(sh.(m := AdvanceStart(sh.m, oo), phase := Advanced, taken := 0, extra := At(sh.m, !g).signals,
              stray := sh.early, early := 0),
          Signaler(ReopenSlot(os, oo), op, rd, g))
    case ReopenSlot(os, oo) =>
      Out(sh.(m := Reopen(sh.m, g), phase := Reopened), Signaler(Flip(os, oo), op, rd, g))
    case Flip(os, oo) =>
      Out(sh.(m := FlipRoles(sh.m), phase := Flipped, cut := sh.m.next),
          Signaler(AddSize(os, oo, sh.m.next), op, rd, !g))
    case AddSize(os, oo, sx) =>
      Out(sh.(m := SetSize(sh.m, g, x.size + sx - os - oo), phase := Sized),
          Signaler(SetOrig(os, oo, sx), op, rd, g))
    case SetOrig(os, oo, sx) =>
      if c.fail then Out(sh, Signaler(pc, op, rd, g))
      else Out(sh.(m := sh.m.(orig := sx - os - oo), phase := Open),
               Signaler(if x.size == 0 then Unlock(NoWake) else if op == Signal then Post else PostAll, op, rd, g))
    case PostAll => Out(Posted(sh, g, x.size), Signaler(Unlock(WakesAll), op, rd, g))
    case Unlock(wakes) =>
      Out(sh.(m := sh.m.(locked := false)),
          match wakes case NoWake => Idle case WakesOne => Waking(g, false) case WakesAll => Waking(g, true))
  }

  /** The steps of pthread_cond_destroy. */
  function ActDestroyer(sh: Shared, pc: DestroyerPc): Out {
    match pc
    case SetDestroying =>
      Out(sh.(m := sh.m.(destroying := true)),
          if sh.m.wcount != 0 then Destroyer(DFutex(sh.m.wcount)) else Idle)
    case DFutex(r) => Out(sh, Destroyer(if sh.m.wcount == r && sh.m.destroying then DAsleep else DLoad))
    case DAsleep => Out(sh, Destroyer(DLoad))
    case DLoad => Out(sh, if sh.m.wcount != 0 then Destroyer(DFutex(sh.m.wcount)) else Idle)
  }

  /** One step of a thread on its own. */
  function Act(sh: Shared, l: Local, c: Choice): Out {
    match l
    case Idle =>
      (match c.call
       case CallWait => Out(sh.(m := TakeSeq(sh.m)), Waiter(Registered, sh.m.next, sh.m.g2))
       case CallSignal => Out(sh, Fast(Signal))
       case CallBroadcast => Out(sh, Fast(Broadcast))
       case CallDestroy => Out(sh, Destroyer(SetDestroying)))
    case Waiter(pc, pos, g) => ActWaiter(sh, pc, pos, g, c)
    case WakeDestroyer => Out(sh, Idle)
    case Fast(op) => Out(sh, if sh.m.wcount == 0 then Idle else Acquire(op))
    case Acquire(op) =>
      if sh.m.locked then Out(sh, l) else Out(sh.(m := sh.m.(locked := true)), ReadSeq(op))
    case ReadSeq(op) =>
      var g := !sh.m.g2;
      Out(sh, Signaler(if At(sh.m, g).size == 0 then Test else if op == Signal then Post else PostRest,
                       op, sh.m.next, g))
    case Signaler(pc, op, rd, g) => ActSignaler(sh, pc, op, rd, g, c)
    case Waking(g, all) => Out(sh, Idle)
    case Destroyer(pc) => ActDestroyer(sh, pc)
  }

  // ---------- sleeping and waking ----------

  /** The futex words threads sleep on. */
  datatype Address = Signals(g: bool) | GRefs(g: bool) | WRefs

  datatype Duty = NoDuty | Duty(a: Address, all: bool)

  /** The futex word on which a thread sleeps, if any. */
  predicate SleepsOn(l: Local, a: Address) {
    match a
    case Signals(g) => l.Waiter? && l.w.Asleep? && l.g == g
    case GRefs(g) => l.Signaler? && l.s.QAsleep? && l.g == g
    case WRefs => l.Destroyer? && l.d.DAsleep?
  }

  /** The FUTEX_WAKE that is the thread's next step, if it is one. */
  function NextWake(l: Local): Duty {
    match l
    case Waiter(w, _, g) =>
      if w.RepairWake? then Duty(Signals(g), false)
      else if w.WakeQuiescer? then Duty(GRefs(g), true) else NoDuty
    case Signaler(s, _, _, g) => if s.WakeRest? then Duty(Signals(g), true) else NoDuty
    case Waking(g, all) => Duty(Signals(g), all)
    case WakeDestroyer => Duty(WRefs, true)
    case _ => NoDuty
  }

  ghost predicate NobodyOn(s: State, a: Address) {
    forall i :: 0 <= i < |s.ths| ==> !SleepsOn(s.ths[i], a)
  }

  /** A step of thread t alone. A wake call ends this way when nobody sleeps on its word. */
  ghost predicate Solo(s: State, t: int, c: Choice, s': State) {
    && 0 <= t < |s.ths|
    && (NextWake(s.ths[t]).Duty? ==> NobodyOn(s, NextWake(s.ths[t]).a))
    && var o := Act(s.sh, s.ths[t], c);
    && s'.sh == o.sh
    && s'.ths == s.ths[t := o.l]
  }

  /** A wake call of thread t returns the sleeper u from its futex call. Waking one is then
      over; waking all goes on until nobody is left. */
  ghost predicate WakeStep(s: State, t: int, u: int, c: Choice, s': State) {
    && 0 <= t < |s.ths| && 0 <= u < |s.ths| && t != u
    && NextWake(s.ths[t]).Duty?
    && SleepsOn(s.ths[u], NextWake(s.ths[t]).a)
    && s'.sh == s.sh
    && s'.ths == (if NextWake(s.ths[t]).all then s.ths else s.ths[t := Act(s.sh, s.ths[t], c).l])
                   [u := Act(s.sh, s.ths[u], c).l]
  }

  ghost predicate Next(s: State, s': State) {
    || (exists t, c :: Solo(s, t, c, s'))
    || (exists t, u, c :: WakeStep(s, t, u, c, s'))
  }

  /** The words after pthread_cond_init, with an empty history. */
  const INITIAL_SHARED := Shared(INITIAL_MEM, 0, 0, 0, 0, 0, 0, Open)

  ghost predicate Init(s: State) {
    && s.sh == INITIAL_SHARED
    && forall i :: 0 <= i < |s.ths| ==> s.ths[i] == Idle
  }

  /** A run: any number of threads, any schedule, any length. */
  ghost predicate IsRun(run: seq<State>) {
    && |run| > 0
    && Init(run[0])
    && forall i :: 0 <= i < |run| - 1 ==> Next(run[i], run[i + 1])
  }
}
