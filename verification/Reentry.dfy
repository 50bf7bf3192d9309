/** A handler without SA_NODEFER is never entered again while it is live. */
module Reentry {
  import opened Signals
  import opened Machine
  import opened Accounting

  /** No handler defers nothing, and handlers neither unblock nor suspend nor edit their masks. */
  predicate Tame(s: State, e: Event) {
    && (e.Install? && e.action.Handler? ==> !e.action.noDefer)
    && (s.frames != [] ==>
          && !e.Unblock? && !e.Suspend? && !e.EditMask?
          && (e.SetMask? ==> s.mask <= Filter(e.sigs)))
  }

  /** The signal of each live frame is blocked now, and is in the mask saved by every later frame. */
  ghost predicate Guarded(s: State) {
    && Unblockable(s)
    && (s.sleep.InSuspend? ==> s.frames == [])
    && (forall k :: k in s.actions && s.actions[k].Handler? ==> !s.actions[k].noDefer)
    && (forall i :: 0 <= i < |s.frames| ==> s.frames[i].inst.sig in s.mask)
    && (forall i, j :: 0 <= i < j < |s.frames| ==> s.frames[i].inst.sig in s.frames[j].mask)
    && (forall i, j :: 0 <= i < j < |s.frames| ==> s.frames[i].inst.sig != s.frames[j].inst.sig)
  }

  lemma GuardedDeliver(s: State)
    requires CanDeliver(s) && Guarded(s)
    ensures Guarded(DeliverNext(s))
  {
    var x, f := DeliverShape(s);
    var t := DeliverNext(s);
    StepKeepsUnblockable(s, Deliver);
    if f == Handled {
      assert t.frames == s.frames + [t.frames[|s.frames|]];
    }
  }

  lemma GuardedReturn(s: State)
    requires s.frames != [] && Guarded(s) && InUserMode(s)
    ensures Guarded(ReturnFrom(s))
  {
    StepKeepsUnblockable(s, Return);
  }

  lemma GuardedOther(s: State, e: Event)
    requires Enabled(s, e) && Tame(s, e) && Guarded(s) && Unblockable(Next(s, e))
    requires !e.Deliver? && !e.Return? && !e.Longjmp? && !e.Install?
    ensures Guarded(Next(s, e))
  {
    var t := Next(s, e);
    assert t.actions == s.actions && |t.frames| == |s.frames|;
    if s.frames != [] {
      assert s.mask <= t.mask;
      assert forall i :: 0 <= i < |t.frames| ==>
          t.frames[i].inst == s.frames[i].inst && t.frames[i].mask == s.frames[i].mask;
    }
  }

  lemma GuardedLongjmp(s: State, d: nat, r: Regs)
    requires Guarded(s) && InUserMode(s) && d <= |s.frames|
    ensures Guarded(s.(frames := s.frames[..d], regs := r))
  {
  }

  lemma GuardedInstall(s: State, sig: Sig, a: Action)
    requires Guarded(s) && InUserMode(s) && (a.Handler? ==> !a.noDefer)
    ensures Guarded(InstallAction(s, sig, a))
  {
    StepKeepsUnblockable(s, Install(sig, a));
  }

  lemma GuardedStep(s: State, e: Event)
    requires Enabled(s, e) && Tame(s, e) && Guarded(s)
    ensures Guarded(Next(s, e))
  {
    match e
    case Deliver => GuardedDeliver(s);
    case Return => GuardedReturn(s);
    case Longjmp(d, r) => GuardedLongjmp(s, d, r);
    case Install(sig, a) => GuardedInstall(s, sig, a);
    case _ => StepKeepsUnblockable(s, e); GuardedOther(s, e);
  }

  ghost function LiveSignals(fs: seq<Frame>): set<Sig> {
    set i | 0 <= i < |fs| :: fs[i].inst.sig
  }

  lemma {:induction false} DistinctDepth(fs: seq<Frame>)
    requires forall i, j :: 0 <= i < j < |fs| ==> fs[i].inst.sig != fs[j].inst.sig
    ensures |LiveSignals(fs)| == |fs|
  {
    if fs == [] {
      assert LiveSignals(fs) == {};
    } else {
      var n := |fs| - 1;
      DistinctDepth(fs[..n]);
      assert LiveSignals(fs) == LiveSignals(fs[..n]) + {fs[n].inst.sig};
    }
  }

  /** In every reachable state of a tame program the live handlers serve pairwise different
      signals, every one of them blocked, so there are never more than 62 of them. */
  lemma {:induction false} NoReentry(abi: Abi, regs: Regs, es: seq<Event>)
    requires Throughout(Fresh(abi, regs), es, Tame)
    ensures Feasible(Fresh(abi, regs), es)
    ensures var s := Exec(Fresh(abi, regs), es);
            && (forall i, j :: 0 <= i < j < |s.frames| ==> s.frames[i].inst.sig != s.frames[j].inst.sig)
            && (forall i :: 0 <= i < |s.frames| ==> s.frames[i].inst.sig in s.mask)
            && |s.frames| <= 62
  {
    forall t, e | Guarded(t) && Enabled(t, e) && Tame(t, e) ensures Guarded(Next(t, e)) {
      GuardedStep(t, e);
    }
    RunInduction(Fresh(abi, regs), es, Tame, Guarded);
    var s := Exec(Fresh(abi, regs), es);
    DistinctDepth(s.frames);
    SubsetSize(LiveSignals(s.frames), s.mask);
    BlockableBound(s.mask);
  }
}
