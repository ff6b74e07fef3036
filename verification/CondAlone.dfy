/** A thread of the condition variable that nobody disturbs. */
module CondAlone {
  import opened CondProtocol

  /** k steps of one thread as the shared state and the thread see them. */
  function ActN(sh: Shared, l: Local, c: Choice, k: nat): Out
    decreases k
  {
    if k == 0 then Out(sh, l) else ActN(Act(sh, l, c).sh, Act(sh, l, c).l, c, k - 1)
  }

  lemma {:induction false} ActNAdds(sh: Shared, l: Local, c: Choice, j: nat, k: nat)
    ensures var o := ActN(sh, l, c, j);
            ActN(o.sh, o.l, c, k) == ActN(sh, l, c, j + k)
    decreases j
  {
    if j > 0 {
      ActNAdds(Act(sh, l, c).sh, Act(sh, l, c).l, c, j - 1, k);
    }
  }

  /** One step before k others. */
  lemma StepFirst(sh: Shared, l: Local, c: Choice, o: Out, k: nat)
    requires Act(sh, l, c) == o
    ensures ActN(sh, l, c, k + 1) == ActN(o.sh, o.l, c, k)
  {
  }
}
