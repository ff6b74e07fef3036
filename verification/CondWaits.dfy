/** A wait that nobody disturbs: from every place in the code the waiter ends, after a bounded number of its own steps,
    outside of the call or asleep, with an outcome stated as one formula; and what this means for signals that are
    there, for closed groups and for thieves. */
module CondWaits {
  import opened CondMemory
  import opened CondProtocol
  import opened CondInvariant
  import opened CondTally
  import opened CondAlone
  import opened Numbers

  /** One waiter less. */
  function Gone(sh: Shared): Out {
    Out(sh.(m := AddWaiters(sh.m, -1)), Idle)
  }

  // ---------- repairing ----------

  function GiveBack(sh: Shared, ep: StartWord, pos: int, g: bool): Shared {
    if At(sh.m, g).closed then sh else Repaired(sh, ep, pos, g)
  }

  /** What a thief does to the words from its place on. */
  function RepairEnd(sh: Shared, w: WaiterPc, pos: int, g: bool): Shared {
    match w
    case Consumed(ep) => if pos < sh.m.start && g == G1(sh) then GiveBack(sh, ep, pos, g) else sh
    case ReloadSignals(ep, w) => if Current(sh) == w then GiveBack(sh, ep, pos, g) else sh
    case RepairTest(ep, w, _, sc) => if Current(sh) == w && !sc then GiveBack(sh, ep, pos, g) else sh
    case RepairCas(ep, w, s, sc) =>
      if sc then sh
      else if !At(sh.m, g).closed && At(sh.m, g).signals == s then Repaired(sh, ep, pos, g)
      else if Current(sh) == w then GiveBack(sh, ep, pos, g) else sh
    case _ => sh
  }

  predicate Repairs(w: WaiterPc) {
    w.Consumed? || w.ReloadSignals? || w.RepairTest? || w.RepairCas? || w.RepairWake?
  }

  /** The number of steps to the end of the repair is at most this. */
  function RepairRank(sh: Shared, w: WaiterPc, g: bool): nat {
    match w
    case Consumed(_) => 6
    case ReloadSignals(_, _) => 5
    case RepairCas(_, _, s, sc) => if sc || (!At(sh.m, g).closed && At(sh.m, g).signals == s) then 2 else 7
    case RepairTest(_, _, s, sc) => if sc || (!At(sh.m, g).closed && At(sh.m, g).signals == s) then 4 else 8
    case _ => 1
  }

  /** A step of the repair does not change where it ends. */
  lemma RepairGoesOn(sh: Shared, w: WaiterPc, pos: int, g: bool, c: Choice)
    requires !c.fail && Repairs(w)
    ensures var o := ActWaiter(sh, w, pos, g, c);
            && o.l.Waiter? && o.l.pos == pos && o.l.g == g
            && if o.l.w == Leave(true) then o.sh == RepairEnd(sh, w, pos, g)
               else Repairs(o.l.w) && RepairRank(o.sh, o.l.w, g) < RepairRank(sh, w, g)
                    && RepairEnd(o.sh, o.l.w, pos, g) == RepairEnd(sh, w, pos, g)
  {
  }

  // ---------- the loop ----------

  /** The words after dec_grefs. */
  function Dropped(sh: Shared, g: bool): Shared {
    var x := At(sh.m, g);
    sh.(m := Put(sh.m, g, x.(refs := x.refs - 1, wake := x.wake && x.refs != 1)))
  }

  function Referenced(sh: Shared, g: bool): Shared {
    sh.(m := AddRefs(sh.m, g, 1))
  }

  /** Where a waiter ends that loads g_signals now: a closed group is left; a signal is taken, and given back if it was
      stolen; without one a waiter of a group closed for good leaves and any other blocks. */
  function LoadEnd(sh: Shared, pos: int, g: bool): Out {
    var x := At(sh.m, g);
    if x.closed then Gone(sh)
    else if x.signals != 0 then Gone(RepairEnd(Took(sh, pos, g), Consumed(Current(sh)), pos, g))
    else if pos < sh.m.start then Gone(Dropped(Referenced(sh, g), g))
    else Out(Referenced(sh, g), Waiter(Asleep, pos, g))
  }

  function BackEnd(sh: Shared, leave: bool, pos: int, g: bool): Out {
    if leave then Gone(sh) else LoadEnd(sh, pos, g)
  }

  /** Nothing keeps a waiter of slot x from blocking. */
  predicate Blocks(x: Slot) {
    x.signals == 0 && !x.closed
  }

  function StartEnd(sh: Shared, pos: int, g: bool): Out {
    if pos < sh.m.start then Gone(Dropped(sh, g))
    else if Blocks(At(sh.m, g)) then Out(sh, Waiter(Asleep, pos, g))
    else LoadEnd(Dropped(sh, g), pos, g)
  }

  function ClosedEnd(sh: Shared, pos: int, g: bool): Out {
    if At(sh.m, g).closed then Gone(Dropped(sh, g)) else StartEnd(sh, pos, g)
  }

  /** Where a waiter ends from each place. A sleeper is one that has just been woken. */
  function WaitEnd(sh: Shared, w: WaiterPc, pos: int, g: bool): Out {
    match w
    case Registered => LoadEnd(sh.(m := AddWaiters(sh.m, 1)), pos, g)
    case Load => LoadEnd(sh, pos, g)
    case Consume(_) => LoadEnd(sh, pos, g)
    case TakeRef => ClosedEnd(Referenced(sh, g), pos, g)
    case CheckClosed => ClosedEnd(sh, pos, g)
    case CheckStart => StartEnd(sh, pos, g)
    case Futex => if Blocks(At(sh.m, g)) then Out(sh, Waiter(Asleep, pos, g)) else LoadEnd(Dropped(sh, g), pos, g)
    case Asleep => LoadEnd(Dropped(sh, g), pos, g)
    case Dec(leave) => BackEnd(Dropped(sh, g), leave, pos, g)
    case ClearFlag(leave) => BackEnd(sh.(m := SetWake(sh.m, g, false)), leave, pos, g)
    case WakeQuiescer(leave) => BackEnd(sh, leave, pos, g)
    case Leave(_) => Gone(sh)
    case _ => Gone(RepairEnd(sh, w, pos, g))
  }

  function WaitRank(sh: Shared, w: WaiterPc, g: bool): nat {
    var x := At(sh.m, g);
    var busy := if Blocks(x) then 0 else 10;
    match w
    case Registered => 22
    case TakeRef => 11 + busy
    case CheckClosed => 10 + busy
    case CheckStart => 9 + busy
    case Futex => 8 + busy
    case Asleep => 18
    case Dec(leave) => if leave then 7 else 17
    case ClearFlag(leave) => if leave then 6 else 16
    case WakeQuiescer(leave) => if leave then 5 else 15
    case Load => 14
    case Consume(v) => if x.closed || x.signals == v then 13 else 14
    case Leave(_) => 2
    case _ => 3 + RepairRank(sh, w, g)
  }

  /** A signal is taken only if one was seen. */
  predicate Seen(w: WaiterPc) {
    w.Consume? ==> w.v != 0
  }

  /** The step leads from a place to one with a lower rank and the same end, or to the end. */
  predicate SameEnd(sh: Shared, w: WaiterPc, pos: int, g: bool, o: Out) {
    if o.l.Waiter? && !o.l.w.Asleep? then
      && o.l.pos == pos && o.l.g == g && Seen(o.l.w) && WaitRank(o.sh, o.l.w, g) < WaitRank(sh, w, g)
      && WaitEnd(o.sh, o.l.w, pos, g) == WaitEnd(sh, w, pos, g)
    else if o.l == WakeDestroyer then Out(o.sh, Idle) == WaitEnd(sh, w, pos, g)
    else o == WaitEnd(sh, w, pos, g)
  }

  predicate HasReference(w: WaiterPc) {
    w.TakeRef? || w.CheckClosed? || w.CheckStart? || w.Futex?
  }

  lemma LoopGoesOn(sh: Shared, w: WaiterPc, pos: int, g: bool, c: Choice)
    requires !c.fail && Seen(w) && (w.Registered? || w.Load? || w.Consume?)
    ensures SameEnd(sh, w, pos, g, ActWaiter(sh, w, pos, g, c))
  {
  }

  lemma CheckGoesOn(sh: Shared, w: WaiterPc, pos: int, g: bool, c: Choice)
    requires HasReference(w)
    ensures SameEnd(sh, w, pos, g, ActWaiter(sh, w, pos, g, c))
  {
  }

  lemma DecLeaves(sh: Shared, pos: int, g: bool, c: Choice)
    ensures SameEnd(sh, Dec(true), pos, g, ActWaiter(sh, Dec(true), pos, g, c))
  {
  }

  lemma DecReturns(sh: Shared, pos: int, g: bool, c: Choice)
    ensures SameEnd(sh, Dec(false), pos, g, ActWaiter(sh, Dec(false), pos, g, c))
  {
  }

  lemma OthersGoOn(sh: Shared, w: WaiterPc, pos: int, g: bool, c: Choice)
    requires w.Asleep? || w.ClearFlag? || w.WakeQuiescer? || w.Leave?
    ensures SameEnd(sh, w, pos, g, ActWaiter(sh, w, pos, g, c))
  {
  }

  lemma WaitGoesOn(sh: Shared, w: WaiterPc, pos: int, g: bool, c: Choice)
    requires !c.fail && Seen(w)
    ensures SameEnd(sh, w, pos, g, ActWaiter(sh, w, pos, g, c))
  {
    if Repairs(w) {
      RepairGoesOn(sh, w, pos, g, c);
    } else if HasReference(w) {
      CheckGoesOn(sh, w, pos, g, c);
    } else if w.Registered? || w.Load? || w.Consume? {
      LoopGoesOn(sh, w, pos, g, c);
    } else if w.Dec? {
      if w.leave {
        DecLeaves(sh, pos, g, c);
      } else {
        DecReturns(sh, pos, g, c);
      }
    } else {
      OthersGoOn(sh, w, pos, g, c);
    }
  }

  /** A waiter that nobody disturbs ends as WaitEnd says, in at most 24 steps. */
  lemma {:induction false} WaitEnds(sh: Shared, w: WaiterPc, pos: int, g: bool, c: Choice) returns (k: nat)
    requires !c.fail && Seen(w)
    ensures k <= 2 + WaitRank(sh, w, g) <= 24 && ActN(sh, Waiter(w, pos, g), c, k) == WaitEnd(sh, w, pos, g)
    decreases WaitRank(sh, w, g)
  {
    WaitGoesOn(sh, w, pos, g, c);
    var l, o := Waiter(w, pos, g), ActWaiter(sh, w, pos, g, c);
    if o.l.Waiter? && !o.l.w.Asleep? {
      k := WaitEnds(o.sh, o.l.w, pos, g, c);
    } else if o.l == WakeDestroyer {
      assert Act(o.sh, o.l, c) == Out(o.sh, Idle);
      k := 1;
    } else {
      k := 0;
    }
    StepFirst(sh, l, c, o, k);
    k := k + 1;
  }

  const WAITS := Choice(CallWait, false)

  /** A whole call of wait takes the next number and the slot of G2, and ends as a registered waiter does. */
  lemma UninterruptedWait(sh: Shared) returns (k: nat)
    ensures k <= 25
    ensures ActN(sh, Idle, WAITS, k) == WaitEnd(sh.(m := TakeSeq(sh.m)), Registered, sh.m.next, sh.m.g2)
  {
    var o := Act(sh, Idle, WAITS);
    k := WaitEnds(o.sh, Registered, sh.m.next, sh.m.g2, WAITS);
    StepFirst(sh, Idle, WAITS, o, k);
    k := k + 1;
  }

  // ---------- what this means ----------

  /** Not yet served: in the loop, or just woken. */
  predicate StillWaits(w: WaiterPc) {
    InLoop(w) || w.Asleep?
  }

  /** The words when the waiter gets to its load. */
  function AtLoad(sh: Shared, w: WaiterPc, g: bool): Shared {
    match w
    case Registered => sh.(m := AddWaiters(sh.m, 1))
    case TakeRef => Dropped(Referenced(sh, g), g)
    case ClearFlag(_) => sh.(m := SetWake(sh.m, g, false))
    case _ => if HoldsRef(Waiter(w, 0, g), g) then Dropped(sh, g) else sh
  }

  lemma AtLoadKeeps(sh: Shared, w: WaiterPc, pos: int, g: bool)
    requires StillWaits(w)
    ensures var sh', x, x' := AtLoad(sh, w, g), At(sh.m, g), At(AtLoad(sh, w, g).m, g);
            && At(sh'.m, !g) == At(sh.m, !g) && x' == x.(refs := x'.refs, wake := x'.wake)
            && x'.refs == x.refs - One(HoldsRef(Waiter(w, pos, g), g))
            && sh'.m.wcount == sh.m.wcount + One(w.Registered?) && sh'.m.start == sh.m.start
            && sh'.taken == sh.taken && sh'.early == sh.early
  {
  }

  /** A waiter gets to its load, from the places that take a reference if something keeps it from blocking. */
  lemma LoadsAgain(sh: Shared, w: WaiterPc, pos: int, g: bool)
    requires StillWaits(w)
    requires HasReference(w) ==> sh.m.start <= pos && !At(sh.m, g).closed && At(sh.m, g).signals > 0
    ensures WaitEnd(sh, w, pos, g) == LoadEnd(AtLoad(sh, w, g), pos, g)
  {
  }

  lemma LoadTakes(sh: Shared, pos: int, g: bool)
    requires sh.m.start <= pos && !At(sh.m, g).closed && At(sh.m, g).signals > 0
    ensures var o, x := LoadEnd(sh, pos, g), At(sh.m, g);
            && o.l == Idle && At(o.sh.m, !g) == At(sh.m, !g) && At(o.sh.m, g) == x.(signals := x.signals - 1)
            && o.sh.m.wcount == sh.m.wcount - 1 && o.sh.taken + o.sh.early == sh.taken + sh.early + 1
  {
  }

  /** A signal that is there is taken: a member of G1 or G2 that finds its slot open with a signal, at whatever
      place it is, takes exactly one, drops its reference and returns. */
  lemma SignalIsTaken(sh: Shared, w: WaiterPc, pos: int, g: bool)
    requires SharedInv(sh) && WaiterInv(sh, w, pos, g) && StillWaits(w)
    requires sh.m.start <= pos && !At(sh.m, g).closed && At(sh.m, g).signals > 0
    ensures var o, x := WaitEnd(sh, w, pos, g), At(sh.m, g);
            && o.l == Idle && At(o.sh.m, !g) == At(sh.m, !g)
            && At(o.sh.m, g).signals == x.signals - 1 && At(o.sh.m, g).size == x.size && !At(o.sh.m, g).closed
            && At(o.sh.m, g).refs == x.refs - One(HoldsRef(Waiter(w, pos, g), g))
            && o.sh.m.wcount == sh.m.wcount - One(!w.Registered?)
            && o.sh.taken + o.sh.early == sh.taken + sh.early + 1
  {
    AtLoadKeeps(sh, w, pos, g);
    LoadsAgain(sh, w, pos, g);
    LoadTakes(AtLoad(sh, w, g), pos, g);
  }

  /** A closed group is left without a signal, from wherever the waiter is. */
  lemma ClosedIsLeft(sh: Shared, w: WaiterPc, pos: int, g: bool)
    requires SharedInv(sh) && WaiterInv(sh, w, pos, g) && StillWaits(w) && At(sh.m, g).closed
    ensures var o, x := WaitEnd(sh, w, pos, g), At(sh.m, g);
            && o.l == Idle && At(o.sh.m, !g) == At(sh.m, !g)
            && At(o.sh.m, g) == x.(refs := At(o.sh.m, g).refs, wake := At(o.sh.m, g).wake)
            && At(o.sh.m, g).refs == x.refs - One(HoldsRef(Waiter(w, pos, g), g))
            && o.sh.m.wcount == sh.m.wcount - One(!w.Registered?)
            && o.sh.taken == sh.taken && o.sh.early == sh.early
  {
  }

  lemma NothingChecked(sh: Shared, w: WaiterPc, pos: int, g: bool)
    requires SharedInv(sh) && WaiterInv(sh, w, pos, g) && HasReference(w) && Blocks(At(sh.m, g))
    ensures var o, x := WaitEnd(sh, w, pos, g), At(sh.m, g);
            && o.l == (if pos < sh.m.start then Idle else Waiter(Asleep, pos, g))
            && At(o.sh.m, !g) == At(sh.m, !g)
            && At(o.sh.m, g) == x.(refs := At(o.sh.m, g).refs, wake := At(o.sh.m, g).wake)
            && At(o.sh.m, g).refs == x.refs - One(HoldsRef(Waiter(w, pos, g), g)) + One(sh.m.start <= pos)
  {
  }

  lemma LoadFindsNothing(sh: Shared, pos: int, g: bool)
    requires Blocks(At(sh.m, g))
    ensures var o, x := LoadEnd(sh, pos, g), At(sh.m, g);
            && o.l == (if pos < sh.m.start then Idle else Waiter(Asleep, pos, g))
            && At(o.sh.m, !g) == At(sh.m, !g)
            && At(o.sh.m, g) == x.(refs := At(o.sh.m, g).refs, wake := At(o.sh.m, g).wake)
            && At(o.sh.m, g).refs == x.refs + One(sh.m.start <= pos)
  {
  }

  lemma NothingLoaded(sh: Shared, w: WaiterPc, pos: int, g: bool)
    requires StillWaits(w) && !HasReference(w) && Blocks(At(sh.m, g))
    ensures var o, x := WaitEnd(sh, w, pos, g), At(sh.m, g);
            && o.l == (if pos < sh.m.start then Idle else Waiter(Asleep, pos, g))
            && At(o.sh.m, !g) == At(sh.m, !g)
            && At(o.sh.m, g) == x.(refs := At(o.sh.m, g).refs, wake := At(o.sh.m, g).wake)
            && At(o.sh.m, g).refs == x.refs - One(HoldsRef(Waiter(w, pos, g), g)) + One(sh.m.start <= pos)
  {
    AtLoadKeeps(sh, w, pos, g);
    LoadsAgain(sh, w, pos, g);
    LoadFindsNothing(AtLoad(sh, w, g), pos, g);
  }

  /** Without a signal in its open slot a waiter of a group closed for good leaves, and any other blocks with one
      reference. */
  lemma NothingToTake(sh: Shared, w: WaiterPc, pos: int, g: bool)
    requires SharedInv(sh) && WaiterInv(sh, w, pos, g) && StillWaits(w) && Blocks(At(sh.m, g))
    ensures var o, x := WaitEnd(sh, w, pos, g), At(sh.m, g);
            && o.l == (if pos < sh.m.start then Idle else Waiter(Asleep, pos, g))
            && At(o.sh.m, !g) == At(sh.m, !g)
            && At(o.sh.m, g) == x.(refs := At(o.sh.m, g).refs, wake := At(o.sh.m, g).wake)
            && At(o.sh.m, g).refs == x.refs - One(HoldsRef(Waiter(w, pos, g), g)) + One(sh.m.start <= pos)
  {
    if HasReference(w) {
      NothingChecked(sh, w, pos, g);
    } else {
      NothingLoaded(sh, w, pos, g);
    }
  }

  /** A thief gives the signal back that it takes from G1, and leaves the words as they were; one that finds g1_start
      changed since it read it puts nothing back, and neither does one that finds the slot closed. */
  lemma ThiefEnds(sh: Shared, w: WaiterPc, pos: int, g: bool)
    requires SharedInv(sh) && WaiterInv(sh, w, pos, g)
    ensures (w.Load? || w.Consume?) && pos < sh.m.start && g == G1(sh) && At(sh.m, g).signals > 0
            ==> WaitEnd(sh, w, pos, g) == Gone(sh)
    ensures (w.ReloadSignals? || w.RepairTest?) && Current(sh) != w.w ==> WaitEnd(sh, w, pos, g) == Gone(sh)
    ensures Repairs(w) && At(sh.m, g).closed ==> WaitEnd(sh, w, pos, g) == Gone(sh)
    ensures w.Consumed? && pos < sh.m.start && g == G1(sh) && !At(sh.m, g).closed
            ==> WaitEnd(sh, w, pos, g) == Gone(Repaired(sh, w.ep, pos, g))
  {
  }

  /** Dropping a reference leads to clearing the flag and waking the quiescer just if it was the last and the flag
      is set; and a thief leads to its wake-up just if it has put a signal back or has seen the slot closed. */
  lemma WakesOnlyIfNeeded(sh: Shared, w: WaiterPc, pos: int, g: bool, c: Choice)
    ensures var o := ActWaiter(sh, w, pos, g, c);
            && (w.Dec? ==> (o.l.Waiter? && o.l.w.ClearFlag? <==> At(o.sh.m, g).refs == 0 && At(o.sh.m, g).wake))
            && (Repairs(w) && o.l.Waiter? && o.l.w.RepairWake? ==>
                  w.RepairCas? && (w.sc || At(o.sh.m, g).signals == At(sh.m, g).signals + 1))
  {
  }
}
