/** `rt-order-only-one` in every interleaving: the handshake of `rt-order`, after which the child makes
    one `sigsuspend` and serves only the lowest of the signals it was sent. */
module RtOrderOnlyOne {
  import opened Signals
  import opened Queue
  import opened Machine
  import opened Nesting
  import opened UserCalls
  import opened RtOrder
  import SuspendDriver

  /** The steps up to the release of the child are those of `rt-order`. */
  datatype OneMove = Before(m: Move) | Suspends | Delivers | Handles | Checks

  predicate CanMoveOne(c: Conf, m: OneMove) {
    match m
    case Before(b) => (b.ParentSends? || b.ParentStores? || b.ChildSpins?) && CanMove(c, b)
    case Suspends => c.pc.Released? && InUserMode(c.child)
    case Delivers => c.pc.InHandlers? && CanDeliver(c.child)
    case Handles => c.pc.InHandlers? && InUserMode(c.child) && c.child.frames != []
    case Checks => c.pc.InHandlers? && InUserMode(c.child) && c.child.frames == []
  }

  function MovedOne(c: Conf, m: OneMove, lo: int, hi: int): Conf
    requires CanMoveOne(c, m)
  {
    match m
    case Before(b) => Moved(c, b, lo, hi)
    case Suspends => c.(child := EnterSuspend(c.child, {}), pc := InHandlers)
    case Delivers => c.(child := DeliverNext(c.child))
    case Handles =>
      c.(child := ReturnFrom(c.child),
         failed := c.failed || c.nowServicing != TopFrame(c.child).inst.sig,
         nowServicing := c.nowServicing + 1,
         serviced := c.serviced + 1)
    case Checks =>
      c.(pc := Done,
         failed := c.failed || c.child.regs.rax != -EINTR || c.serviced != 1 || c.nowServicing != lo + 1)
  }

  // ---------------------------------------------------------------- the one call

  /** The child when all of `perm` has been sent, at its call. */
  function AtCall(c0: Conf, perm: seq<Sig>): State {
    Queued(c0.child, Instances(perm))
  }

  /** What the call leaves: the caller's mask, and everything pending but the lowest signal. */
  predicate OneGone(s: State, w: State, lo: int, hi: int)
    requires 1 <= lo < hi <= 65
  {
    && InUserMode(s) && s.frames == [] && s.mask == w.mask && s.regs.rax == -EINTR
    && ServiceOrder(s.pending) == Range(lo + 1, hi)
  }

  lemma AtCallWaits(c0: Conf, perm: seq<Sig>, lo: int, hi: int)
    requires Forked(c0, lo, hi) && IsPermutation(perm, lo, hi) && lo < hi
    ensures var w := AtCall(c0, perm); SuspendDriver.Waiting(w) && w.pending == Instances(perm) != []
  {
    var w := AtCall(c0, perm);
    forall i | 0 <= i < |perm| ensures lo <= perm[i] < hi && perm[i] in c0.child.mask {
      assert perm[i] in perm;
    }
    QueuedIsQuiet(c0.child, Instances(perm));
    assert perm != [] by { var s: Sig := lo; assert s in perm; }
  }

  lemma LowestFirst(q: seq<Instance>, lo: int, hi: int)
    requires 1 <= lo < hi <= 65 && q != [] && Pick(q, {}) < |q| && ServiceOrder(q) == Range(lo, hi)
    ensures q[Pick(q, {})].sig == lo && ServiceOrder(Remove(q, Pick(q, {}))) == Range(lo + 1, hi)
  {
    var i := Pick(q, {});
    RangeHead(lo, hi, q[i], ServiceOrder(Remove(q, i)));
  }

  /** The stages of the call: asleep, in the handler, returned. */
  lemma OneCall(c0: Conf, perm: seq<Sig>, lo: int, hi: int) returns (a: State, b: State, d: State)
    requires Forked(c0, lo, hi) && IsPermutation(perm, lo, hi) && lo < hi
    ensures a == EnterSuspend(AtCall(c0, perm), {}) && CanDeliver(a)
    ensures b == DeliverNext(a) && InUserMode(b) && b.frames != [] && TopFrame(b).inst.sig == lo
    ensures d == ReturnFrom(b) && OneGone(d, AtCall(c0, perm), lo, hi)
  {
    var w := AtCall(c0, perm);
    AtCallWaits(c0, perm, lo, hi);
    SuspendDriver.WaitingCovers(w);
    CoveredSettle(w, {});
    SuspendConsumesExactlyOne(w, {});
    SuspendDriver.FrameServes(w);
    PermutationServed(perm, lo, hi);
    LowestFirst(w.pending, lo, hi);
    a := EnterSuspend(w, {});
    b := DeliverNext(a);
    d := ReturnFrom(b);
    QuietReturn(w);
  }

  /** Nothing is delivered after the return of a covered `sigsuspend`. */
  lemma QuietReturn(w: State)
    requires Resumable(w) && InUserMode(w) && Eligible(w.pending, Filter({}))
    requires Covers(w, {}, ActionOf(w.actions, w.pending[Pick(w.pending, Filter({}))].sig))
    requires !IsIgnored(w.actions, w.pending[Pick(w.pending, Filter({}))].sig)
    ensures var t := DeliverNext(EnterSuspend(w, {}));
            CanDeliver(EnterSuspend(w, {})) && t.frames != [] && ReturnFrom(t) == SuspendOnce(w, {})
  {
    CoveredSettle(w, {});
    CoveredFrame(w, {});
    var t := DeliverNext(EnterSuspend(w, {}));
    var u := ReturnFrom(t);
    assert Filter(w.mask) == w.mask;
    QuietAfterRemove(w.pending, w.mask, Pick(w.pending, Filter({})));
    assert !CanDeliver(u);
    SettleQuiet(u);
  }

  // ---------------------------------------------------------------- the invariant

  predicate InCallOnce(c: Conf, c0: Conf, perm: seq<Sig>, lo: int, hi: int)
    requires 1 <= lo < hi <= 65
  {
    && c.toSend == [] && c.stored
    && if c.serviced == 0 then
         && c.nowServicing == lo
         && (|| c.child == EnterSuspend(AtCall(c0, perm), {})
             || (CanDeliver(EnterSuspend(AtCall(c0, perm), {}))
                 && c.child == DeliverNext(EnterSuspend(AtCall(c0, perm), {}))))
       else
         c.serviced == 1 && c.nowServicing == lo + 1 && OneGone(c.child, AtCall(c0, perm), lo, hi)
  }

  predicate SafeOne(c: Conf, c0: Conf, perm: seq<Sig>, lo: int, hi: int)
    requires 1 <= lo < hi <= 65
  {
    && !c.failed
    && match c.pc
       case Spinning => Waiting(c, c0, perm)
       case Released => Waiting(c, c0, perm)
       case InHandlers => InCallOnce(c, c0, perm, lo, hi)
       case Done =>
         && c.toSend == [] && c.stored && c.serviced == 1 && c.nowServicing == lo + 1
         && OneGone(c.child, AtCall(c0, perm), lo, hi)
  }

  lemma CallStep(c: Conf, m: OneMove, c0: Conf, perm: seq<Sig>, lo: int, hi: int)
    requires Forked(c0, lo, hi) && IsPermutation(perm, lo, hi) && lo < hi
    requires c.pc.InHandlers? && InCallOnce(c, c0, perm, lo, hi) && !c.failed && CanMoveOne(c, m)
    ensures SafeOne(MovedOne(c, m, lo, hi), c0, perm, lo, hi)
  {
    var a, b, d := OneCall(c0, perm, lo, hi);
  }

  lemma SafeOneStep(c: Conf, m: OneMove, c0: Conf, perm: seq<Sig>, lo: int, hi: int)
    requires Forked(c0, lo, hi) && IsPermutation(perm, lo, hi) && lo < hi
    requires SafeOne(c, c0, perm, lo, hi) && CanMoveOne(c, m)
    ensures SafeOne(MovedOne(c, m, lo, hi), c0, perm, lo, hi)
  {
    if c.pc.InHandlers? {
      CallStep(c, m, c0, perm, lo, hi);
    } else if m.Before? {
      WaitingStep(c, m.m, c0, perm, lo, hi);
    } else {
      assert perm[..|perm|] == perm;
    }
  }

  /** What the program asserts and promises, in terms of the child and the globals alone. */
  predicate ServesOne(c: Conf, lo: int, hi: int)
    requires 1 <= lo < hi <= 65
  {
    && !c.failed
    && (!c.pc.Spinning? ==> c.toSend == [] && c.stored)
    && (c.pc.Done? ==>
          && c.serviced == 1 && c.nowServicing == lo + 1 && c.child.regs.rax == -EINTR
          && c.child.mask == Filter(FULL) && ServiceOrder(c.child.pending) == Range(lo + 1, hi))
  }

  lemma SafeOneMeans(c: Conf, c0: Conf, perm: seq<Sig>, lo: int, hi: int)
    requires Forked(c0, lo, hi) && IsPermutation(perm, lo, hi) && lo < hi && SafeOne(c, c0, perm, lo, hi)
    ensures ServesOne(c, lo, hi)
  {
  }

  ghost predicate IsRunOne(run: seq<Conf>, moves: seq<OneMove>, lo: int, hi: int) {
    && |run| == |moves| + 1
    && forall i :: 0 <= i < |moves| ==> CanMoveOne(run[i], moves[i]) && run[i + 1] == MovedOne(run[i], moves[i], lo, hi)
  }

  /** In every interleaving and for every permutation: no assertion fails, the child makes its call
      only after all sends, and at the end exactly the lowest signal has been served: all the others
      are still pending, blocked by the mask the child had before its call. */
  lemma {:induction false} EveryInterleavingServesOne(
      run: seq<Conf>, moves: seq<OneMove>, perm: seq<Sig>, lo: int, hi: int, i: nat)
    requires IsPermutation(perm, lo, hi) && lo < hi && IsRunOne(run, moves, lo, hi) && i < |run|
    requires Forked(run[0], lo, hi) && run[0].toSend == perm
    ensures SafeOne(run[i], run[0], perm, lo, hi)
    ensures ServesOne(run[i], lo, hi)
  {
    if i == 0 {
      WaitingAtFork(run[0], perm, lo, hi);
    } else {
      EveryInterleavingServesOne(run, moves, perm, lo, hi, i - 1);
      SafeOneStep(run[i - 1], moves[i - 1], run[0], perm, lo, hi);
    }
    SafeOneMeans(run[i], run[0], perm, lo, hi);
  }

  predicate IdleOne(c: Conf, m: OneMove) {
    m.Before? && Idle(c, m.m)
  }

  /** Steps still to be taken, not counting idle turns of the spin loop. */
  function RemainingOne(c: Conf): nat {
    |c.toSend| + (if c.stored then 0 else 1)
    + match c.pc
      case Spinning => 5
      case Released => 4
      case InHandlers => 1 + (if c.serviced == 0 then 1 else 0) + (if c.child.sleep.InSuspend? then 1 else 0)
      case Done => 0
  }

  /** Every step that is not an idle turn of the spin loop brings the end nearer. */
  lemma OneStepCounts(c: Conf, m: OneMove, c0: Conf, perm: seq<Sig>, lo: int, hi: int)
    requires Forked(c0, lo, hi) && IsPermutation(perm, lo, hi) && lo < hi && SafeOne(c, c0, perm, lo, hi)
    requires CanMoveOne(c, m) && !IdleOne(c, m)
    ensures RemainingOne(MovedOne(c, m, lo, hi)) < RemainingOne(c)
  {
    if c.pc.InHandlers? {
      CallCounts(c, m, c0, perm, lo, hi);
    }
  }

  lemma CallCounts(c: Conf, m: OneMove, c0: Conf, perm: seq<Sig>, lo: int, hi: int)
    requires Forked(c0, lo, hi) && IsPermutation(perm, lo, hi) && lo < hi
    requires c.pc.InHandlers? && InCallOnce(c, c0, perm, lo, hi) && CanMoveOne(c, m)
    ensures RemainingOne(MovedOne(c, m, lo, hi)) < RemainingOne(c)
  {
    if m.Delivers? {
      var a, b, _ := OneCall(c0, perm, lo, hi);
      assert c.child == a;
    } else if m.Handles? {
      assert c.serviced == 0;
    }
  }

  /** Until the child is done such a step is possible. */
  lemma OneProgress(c: Conf, c0: Conf, perm: seq<Sig>, lo: int, hi: int)
    requires Forked(c0, lo, hi) && IsPermutation(perm, lo, hi) && lo < hi && SafeOne(c, c0, perm, lo, hi)
    ensures !c.pc.Done? ==> exists m :: CanMoveOne(c, m) && !IdleOne(c, m)
  {
    if c.pc.Spinning? || c.pc.Released? {
      SentSoFar(c, c0, perm, lo, hi);
      if c.toSend != [] {
        assert CanMoveOne(c, Before(ParentSends));
      } else if !c.stored {
        assert CanMoveOne(c, Before(ParentStores));
      } else if c.pc.Spinning? {
        assert CanMoveOne(c, Before(ChildSpins)) && !IdleOne(c, Before(ChildSpins));
      } else {
        assert CanMoveOne(c, Suspends);
      }
    } else if c.pc.InHandlers? {
      var a, b, _ := OneCall(c0, perm, lo, hi);
      if c.child == a {
        assert CanMoveOne(c, Delivers);
      } else if c.child.frames != [] {
        assert CanMoveOne(c, Handles);
      } else {
        assert CanMoveOne(c, Checks);
      }
    }
  }
}
