/** `two-signals-alt-stack` for any number of signals: one unblock nests all their frames inside a plain
    alternate stack, and their handlers run from the highest signal down. */
module TwoSignals {
  import opened Signals
  import opened Queue
  import opened Machine
  import opened Nesting
  import opened UserCalls
  import opened AutoDisarm

  /** A plain alternate stack with room for everything pending, in use or not. */
  predicate Roomy(s: State) {
    && s.alt.On? && !s.alt.autodisarm
    && (if OnAlt(s.alt, s.regs.sp) then s.regs.sp - s.alt.sp > Space(s.abi, |s.pending|)
        else Space(s.abi, |s.pending|) <= s.alt.size)
  }

  /** The frames `fs`, for `order`, lie one below the other inside `alt`; each saves `alt`, the first
      also the context the program was interrupted in. */
  predicate NestedIn(fs: seq<Frame>, order: seq<Instance>, alt: Alt, mask: set<Sig>, regs: Regs)
    requires alt.On?
  {
    && |fs| == |order|
    && (forall i :: 0 <= i < |fs| ==> fs[i].inst == order[i] && fs[i].alt == ToStackT(alt))
    && (forall i :: 0 <= i < |fs| ==> alt.sp < fs[i].entry <= fs[i].top <= alt.sp + alt.size)
    && (forall i :: 0 < i < |fs| ==> fs[i].top <= fs[i - 1].entry && fs[i].regs.sp == fs[i - 1].entry)
    && (fs != [] ==> fs[0].mask == mask && fs[0].regs == regs)
    && (fs != [] && OnAlt(alt, regs.sp) ==> fs[0].top <= regs.sp)
  }

  lemma NestedInCons(
      f: Frame, gs: seq<Frame>, order: seq<Instance>, alt: Alt, mask: set<Sig>, regs: Regs,
      below: set<Sig>, handler: Regs)
    requires alt.On? && NestedIn(gs, order, alt, below, handler)
    requires f.alt == ToStackT(alt) && f.mask == mask && f.regs == regs && handler.sp == f.entry
    requires alt.sp < f.entry <= f.top <= alt.sp + alt.size && OnAlt(alt, handler.sp)
    requires OnAlt(alt, regs.sp) ==> f.top <= regs.sp
    ensures NestedIn([f] + gs, [f.inst] + order, alt, mask, regs)
  {
    var fs, all := [f] + gs, [f.inst] + order;
    forall i | 0 < i < |fs| ensures fs[i] == gs[i - 1] && all[i] == order[i - 1] {}
  }

  /** The lowest signal's frame goes inside the alternate stack and leaves room for the others. */
  lemma RoomyNext(s: State) returns (t: State, f: Frame)
    requires AllReady(s) && Roomy(s) && s.pending != []
    ensures Settle(s) == Settle(t) && AllReady(t) && Roomy(t) && OnAlt(t.alt, t.regs.sp)
    ensures |t.pending| == |s.pending| - 1 && t.alt == s.alt && t.actions == s.actions
    ensures ServiceOrder(s.pending) == [f.inst] + ServiceOrder(t.pending)
    ensures t.frames == s.frames + [f] && t.regs.sp == f.entry
    ensures f.mask == s.mask && f.alt == ToStackT(s.alt) && f.regs == s.regs
    ensures s.alt.sp < f.entry <= f.top <= s.alt.sp + s.alt.size
    ensures OnAlt(s.alt, s.regs.sp) ==> f.top <= s.regs.sp
  {
    t, f := ReadyNext(s);
    SpaceStep(s.abi, |s.pending|);
  }

  lemma SpaceStep(abi: Abi, n: nat)
    requires n > 0
    ensures Space(abi, n) == abi.frame + 152 + Space(abi, n - 1)
  {
  }

  /** Before any handler body runs, all frames are up, one below the other. */
  lemma {:induction false} SettleNests(s: State)
    requires AllReady(s) && Roomy(s)
    ensures var t := Settle(s);
            && t.pending == [] && t.alt == s.alt && t.status.Alive? && t.sleep.Awake? && t.actions == s.actions
            && |t.frames| >= |s.frames| && t.frames[..|s.frames|] == s.frames
            && NestedIn(t.frames[|s.frames|..], ServiceOrder(s.pending), s.alt, s.mask, s.regs)
    decreases |s.pending|
  {
    if s.pending != [] {
      var t, f := RoomyNext(s);
      SettleNests(t);
      var fs := Settle(t).frames;
      PushedSuffix(s.frames, f, fs);
      NestedInCons(f, fs[|t.frames|..], ServiceOrder(t.pending), s.alt, s.mask, s.regs, t.mask, t.regs);
    }
  }

  lemma UnblockNestsAll(k: State, sigs: seq<Sig>, base: int, size: nat)
    requires InUserMode(k) && k.frames == [] && k.mask == Filter(FULL) && DistinctSigs(sigs)
    requires k.pending == Instances(sigs)
    requires k.alt == On(base, size, false) && !Within(k.regs.sp, base, size) && Space(k.abi, |sigs|) <= size
    requires forall i :: 0 <= i < |sigs| ==> ActionOf(k.actions, sigs[i]) == HANDLER
    ensures var t := Settle(UnblockSome(k, FULL));
            && InUserMode(t) && t.pending == [] && t.alt == k.alt && (sigs == [] ==> t.mask == {})
            && NestedIn(t.frames, ServiceOrder(Instances(sigs)), k.alt, {}, k.regs)
  {
    var s := UnblockSome(k, FULL);
    assert s.mask == {};
    assert AllReady(s);
    SettleNests(s);
    assert Settle(s).frames[0..] == Settle(s).frames;
  }

  class TwoSignalsAltStack {
    const newStack: int
    const size: nat
    var ok: set<Sig>
    ghost var trace: seq<Instance>

    constructor (newStack: int, size: nat)
      ensures this.newStack == newStack && this.size == size && ok == {} && trace == []
    {
      this.newStack, this.size, ok, trace := newStack, size, {}, [];
    }

    /** Notes that the signal came; the program has a flag for each of its two. */
    method SignalHandler(inst: Instance)
      modifies this
      ensures ok == old(ok) + {inst.sig} && trace == old(trace) + [inst]
    {
      ok := ok + {inst.sig};
      trace := trace + [inst];
    }

    method SetUp(abi: Abi, regs: Regs, sigs: seq<Sig>) returns (k: State)
      requires MINSIGSTKSZ <= size && forall i :: 0 <= i < |sigs| ==> sigs[i] !in UNBLOCKABLE
      ensures InUserMode(k) && k.abi == abi && k.frames == [] && k.pending == [] && k.mask == Filter(FULL)
      ensures k.alt == On(newStack, size, false) && k.regs.sp == regs.sp
      ensures forall i :: 0 <= i < |sigs| ==> ActionOf(k.actions, sigs[i]) == HANDLER
    {
      k := ArmAlt(Fresh(abi, regs), StackT(newStack, size, 0));
      k := InstallAll(k, sigs, HANDLER);
      k := BlockMore(k, FULL);
    }

    /** For any number of distinct signals raised in any order: `main` returns 0, the handlers run
        once each from the highest signal down to the lowest, and the stack is set as before. */
    method Drive(abi: Abi, regs: Regs, sigs: seq<Sig>) returns (r: int, k: State)
      requires ok == {} && trace == []
      requires DistinctSigs(sigs) && forall i :: 0 <= i < |sigs| ==> sigs[i] !in UNBLOCKABLE
      requires MINSIGSTKSZ <= size && Space(abi, |sigs|) <= size && !Within(regs.sp, newStack, size)
      modifies this
      ensures r == 0 && Reversed(trace) == ServiceOrder(Instances(sigs))
      ensures k.alt == On(newStack, size, false) && k.mask == {} && k.frames == [] && k.pending == []
    {
      k := SetUp(abi, regs, sigs);
      k := QueueAll(k, Instances(sigs));
      UnblockNestsAll(k, sigs, newStack, size);
      ghost var before := k.regs;
      k := Settle(UnblockSome(k, FULL));
      k := RunHandlers(k, ServiceOrder(Instances(sigs)), before);
      AllServed(sigs, trace, ok);
      r := if forall i :: 0 <= i < |sigs| ==> sigs[i] in ok then 0 else 1;
    }

    /** Runs the stacked handlers, each to its `sigreturn`. */
    method RunHandlers(k0: State, ghost order: seq<Instance>, ghost regs: Regs) returns (k: State)
      requires ok == {} && trace == [] && MINSIGSTKSZ <= size
      requires InUserMode(k0) && k0.pending == [] && (order == [] ==> k0.mask == {})
      requires k0.alt == On(newStack, size, false) && NestedIn(k0.frames, order, k0.alt, {}, regs)
      modifies this
      ensures Reversed(trace) == order && forall i :: 0 <= i < |trace| ==> trace[i].sig in ok
      ensures k.alt == k0.alt && k.mask == {} && k.frames == [] && k.pending == []
    {
      k := k0;
      while k.frames != []
        invariant |k.frames| <= |order| && k.frames == k0.frames[..|k.frames|]
        invariant InUserMode(k) && k.pending == [] && k.alt == k0.alt
        invariant k.frames == [] ==> k.mask == {}
        invariant Reversed(trace) == order[|k.frames|..]
        invariant forall i :: 0 <= i < |trace| ==> trace[i].sig in ok
        decreases |k.frames|
      {
        var m := |k.frames| - 1;
        assert TopFrame(k) == k0.frames[m] && TopFrame(k).inst == order[m];
        SignalHandler(TopFrame(k).inst);
        ReversedSnoc(trace[..|trace| - 1], order, m);
        assert trace == trace[..|trace| - 1] + [order[m]];
        PlainReturn(k);
        k := Settle(ReturnFrom(k));
      }
    }
  }

  /** On a plain alternate stack a return gives back the setting, refused or not. */
  lemma PlainReturn(k: State)
    requires InUserMode(k) && k.pending == [] && k.frames != [] && k.alt.On? && !k.alt.autodisarm
    requires TopFrame(k).alt == ToStackT(k.alt) && MINSIGSTKSZ <= k.alt.size
    ensures var u := ReturnFrom(k);
            && Settle(u) == u && InUserMode(u) && u.alt == k.alt && u.pending == []
            && u.mask == Filter(TopFrame(k).mask) && u.frames == k.frames[..|k.frames| - 1]
  {
    var u := ReturnFrom(k);
    StackTRoundTrip(k.alt);
    assert !Eligible(u.pending, u.mask);
    SettleQuiet(u);
  }

  lemma ReversedSnoc(trace: seq<Instance>, order: seq<Instance>, m: nat)
    requires m < |order| && Reversed(trace) == order[m + 1..]
    ensures Reversed(trace + [order[m]]) == order[m..]
  {
    assert order[m..] == [order[m]] + order[m + 1..];
  }

  lemma AllServed(sigs: seq<Sig>, trace: seq<Instance>, ok: set<Sig>)
    requires Reversed(trace) == ServiceOrder(Instances(sigs))
    requires forall i :: 0 <= i < |trace| ==> trace[i].sig in ok
    ensures forall i :: 0 <= i < |sigs| ==> sigs[i] in ok
  {
    forall i | 0 <= i < |sigs| ensures sigs[i] in ok {
      var x := Instances(sigs)[i];
      ServiceOrderMember(Instances(sigs), x);
      var j :| 0 <= j < |Reversed(trace)| && Reversed(trace)[j] == x;
      assert trace[|trace| - 1 - j] == x;
    }
  }
}
