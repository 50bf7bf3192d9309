/** `two-signals-alt-stack-disarm` for any number of signals: one unblock stacks all the frames in
    ascending order on an auto-disarming alternate stack, and the handlers run in descending order. */
module AutoDisarm {
  import opened Signals
  import opened Queue
  import opened Machine
  import opened UserCalls
  import Layout

  /** What `n` frames can take from a stack at most: red zone, frame and padding each time. */
  function Space(abi: Abi, n: nat): nat {
    if n == 0 then 0 else abi.frame + 152 + Space(abi, n - 1)
  }

  predicate Distinct(q: seq<Instance>) {
    forall i, j :: 0 <= i < j < |q| ==> q[i].sig != q[j].sig
  }

  /** Every pending signal is distinct, deliverable, and has an SA_ONSTACK handler with an empty mask. */
  predicate AllReady(s: State) {
    && s.status.Alive? && s.sleep.Awake?
    && Distinct(s.pending)
    && (forall i :: 0 <= i < |s.pending| ==> s.pending[i].sig !in s.mask)
    && (forall i :: 0 <= i < |s.pending| ==> PlainHandler(ActionOf(s.actions, s.pending[i].sig)))
  }

  predicate PlainHandler(a: Action) {
    a.Handler? && a.saMask == {} && a.onStack && !a.noDefer && !a.resetHand
  }

  lemma DistinctRemove(q: seq<Instance>, i: nat)
    requires Distinct(q) && i < |q|
    ensures Distinct(Remove(q, i))
    ensures forall k :: 0 <= k < |Remove(q, i)| ==> Remove(q, i)[k] in q && Remove(q, i)[k].sig != q[i].sig
  {
    var r := Remove(q, i);
    forall k | 0 <= k < |r| ensures r[k] in q && r[k].sig != q[i].sig {
      assert r[k] == q[if k < i then k else k + 1];
    }
    forall j, k | 0 <= j < k < |r| ensures r[j].sig != r[k].sig {
      assert r[k] == q[if k < i then k else k + 1];
      assert r[j] == q[if j < i then j else j + 1];
    }
  }

  /** The next signal is the lowest of all, and its frame is pushed. */
  lemma ReadyStep(s: State) returns (x: Instance, q: seq<Instance>)
    requires AllReady(s) && s.pending != []
    ensures CanDeliver(s)
    ensures |q| == |s.pending| - 1 && ServiceOrder(s.pending) == [x] + ServiceOrder(q)
    ensures PlainHandler(ActionOf(s.actions, x.sig))
    ensures DeliverNext(s) == Push(s.(pending := q), x, ActionOf(s.actions, x.sig))
    ensures Distinct(q) && forall k :: 0 <= k < |q| ==> q[k] in s.pending && q[k].sig != x.sig
  {
    assert s.pending[0].sig !in s.mask;
    var i := Pick(s.pending, s.mask);
    assert IsNext(s.pending, {}, i);
    NextIsUnique(s.pending, {}, i);
    x, q := s.pending[i], Remove(s.pending, i);
    DeliverHandler(s);
    DistinctRemove(s.pending, i);
  }

  lemma ReadyPush(s: State, x: Instance, q: seq<Instance>)
    requires AllReady(s) && PlainHandler(ActionOf(s.actions, x.sig))
    requires Distinct(q) && forall k :: 0 <= k < |q| ==> q[k] in s.pending && q[k].sig != x.sig
    ensures var f := MakeFrame(s, x, ActionOf(s.actions, x.sig));
            var t := Push(s.(pending := q), x, ActionOf(s.actions, x.sig));
            && AllReady(t) && t.pending == q && t.abi == s.abi && t.actions == s.actions
            && t.alt == (if s.alt.On? && s.alt.autodisarm then Off else s.alt)
            && t.frames == s.frames + [f] && t.regs.sp == f.entry
  {
    assert MakeFrame(s.(pending := q), x, ActionOf(s.actions, x.sig)) == MakeFrame(s, x, ActionOf(s.actions, x.sig));
  }

  /** One step of settling: the frame `f` of the lowest signal goes on top. */
  lemma ReadyNext(s: State) returns (t: State, f: Frame)
    requires AllReady(s) && s.pending != []
    ensures Settle(s) == Settle(t)
    ensures AllReady(t) && |t.pending| == |s.pending| - 1 && t.abi == s.abi && t.actions == s.actions
    ensures ServiceOrder(s.pending) == [f.inst] + ServiceOrder(t.pending)
    ensures t.alt == (if s.alt.On? && s.alt.autodisarm then Off else s.alt)
    ensures t.frames == s.frames + [f] && t.regs.sp == f.entry
    ensures f.mask == s.mask && f.alt == ToStackT(s.alt) && f.regs == s.regs
    ensures f.top == FrameTop(s.abi, s.alt, s.regs.sp, true)
    ensures f.top - s.abi.frame - 24 < f.entry <= f.top
  {
    var x, q := ReadyStep(s);
    ReadyPush(s, x, q);
    SettleStep(s);
    t := Push(s.(pending := q), x, ActionOf(s.actions, x.sig));
    f := MakeFrame(s, x, ActionOf(s.actions, x.sig));
    Layout.EntrySpAligned(s.abi, f.top);
  }

  lemma PushedSuffix(base: seq<Frame>, f: Frame, all: seq<Frame>)
    requires |base| < |all| && all[..|base| + 1] == base + [f]
    ensures all[..|base|] == base && all[|base|..] == [f] + all[|base| + 1..]
  {
    assert all[..|base|] == all[..|base| + 1][..|base|];
    assert all[|base|] == all[..|base| + 1][|base|] == f;
  }

  /** The frames `fs` were pushed on the alternate stack while it was disarmed. */
  predicate NestedFrames(fs: seq<Frame>, order: seq<Instance>, base: int, size: nat) {
    && |fs| == |order|
    && forall i :: 0 <= i < |fs| ==>
         fs[i].inst == order[i] && fs[i].alt == ToStackT(Off) && Within(fs[i].regs.sp, base, size)
  }

  lemma NestedCons(f: Frame, gs: seq<Frame>, order: seq<Instance>, base: int, size: nat)
    requires f.alt == ToStackT(Off) && Within(f.regs.sp, base, size) && NestedFrames(gs, order, base, size)
    ensures NestedFrames([f] + gs, [f.inst] + order, base, size)
  {
  }

  /** With the stack disarmed and in use, settling pushes one frame per pending signal onto it. */
  lemma {:induction false} SettleNested(s: State, base: int, size: nat)
    requires AllReady(s) && s.alt == Off
    requires Within(s.regs.sp, base, size) && s.regs.sp - base > Space(s.abi, |s.pending|)
    ensures var t := Settle(s);
            && t.pending == [] && t.alt == Off && t.status.Alive? && t.sleep.Awake? && t.actions == s.actions
            && |t.frames| >= |s.frames| && t.frames[..|s.frames|] == s.frames
            && NestedFrames(t.frames[|s.frames|..], ServiceOrder(s.pending), base, size)
    decreases |s.pending|
  {
    if s.pending != [] {
      var t, f := ReadyNext(s);
      SettleNested(t, base, size);
      PushedSuffix(s.frames, f, Settle(t).frames);
      NestedCons(f, Settle(t).frames[|t.frames|..], ServiceOrder(t.pending), base, size);
    }
  }

  /** The frames an unblock leaves behind: the first saves the armed stack and a stack pointer off
      it, all later ones save no stack and a stack pointer on it. */
  predicate DisarmFrames(fs: seq<Frame>, order: seq<Instance>, alt: Alt, mask: set<Sig>, regs: Regs)
    requires alt.On?
  {
    && |fs| == |order|
    && (fs != [] ==>
          && fs[0].inst == order[0] && fs[0].alt == ToStackT(alt) && fs[0].mask == mask && fs[0].regs == regs
          && NestedFrames(fs[1..], order[1..], alt.sp, alt.size))
  }

  lemma {:induction false} SettleDisarms(s: State)
    requires AllReady(s) && s.alt.On? && s.alt.autodisarm && s.pending != []
    requires !Within(s.regs.sp, s.alt.sp, s.alt.size) && Space(s.abi, |s.pending|) <= s.alt.size
    ensures var t := Settle(s);
            && t.pending == [] && t.alt == Off && t.status.Alive? && t.sleep.Awake? && t.actions == s.actions
            && |t.frames| >= |s.frames| && t.frames[..|s.frames|] == s.frames
            && DisarmFrames(t.frames[|s.frames|..], ServiceOrder(s.pending), s.alt, s.mask, s.regs)
  {
    var t, f := ReadyNext(s);
    SettleNested(t, s.alt.sp, s.alt.size);
    PushedSuffix(s.frames, f, Settle(t).frames);
  }

  predicate DistinctSigs(sigs: seq<Sig>) {
    forall i, j :: 0 <= i < j < |sigs| ==> sigs[i] != sigs[j]
  }

  /** Unblocking turns the queue of distinct signals into a stack of frames. */
  lemma UnblockStacksAll(k: State, sigs: seq<Sig>, base: int, size: nat)
    requires InUserMode(k) && k.frames == [] && k.mask == Filter(FULL) && DistinctSigs(sigs) && sigs != []
    requires k.pending == Instances(sigs)
    requires k.alt == On(base, size, true) && !Within(k.regs.sp, base, size) && Space(k.abi, |sigs|) <= size
    requires forall i :: 0 <= i < |sigs| ==> ActionOf(k.actions, sigs[i]) == HANDLER
    ensures var t := Settle(UnblockSome(k, FULL));
            && InUserMode(t) && t.pending == [] && t.alt == Off
            && DisarmFrames(t.frames, ServiceOrder(Instances(sigs)), On(base, size, true), {}, k.regs)
    ensures |ServiceOrder(Instances(sigs))| == |sigs|
  {
    var s := UnblockSome(k, FULL);
    assert s.mask == {};
    assert AllReady(s);
    SettleDisarms(s);
    var t := Settle(s);
    assert t.frames[0..] == t.frames;
    ServiceOrderLength(s.pending);
  }

  const HANDLER: Action := Handler(0x1000, {}, true, false, false, false)

  class TwoSignalsAltStackDisarm {
    const newStack: int
    const size: nat
    const n: nat
    var signalCount: nat
    var failed: bool
    ghost var trace: seq<Instance>

    constructor (newStack: int, size: nat, n: nat)
      ensures this.newStack == newStack && this.size == size && this.n == n
      ensures signalCount == 0 && !failed && trace == []
    {
      this.newStack, this.size, this.n := newStack, size, n;
      signalCount, failed, trace := 0, false, [];
    }

    /** The assertions of the handler, with `n` in place of three. */
    method SignalHandler(k: State)
      requires k.frames != []
      modifies this
      ensures trace == old(trace) + [TopFrame(k).inst]
      ensures signalCount == old(signalCount) + 1
      ensures var f := TopFrame(k);
              failed == (old(failed) || QueryAlt(k.alt, k.regs.sp).sp != 0 ||
                         (if signalCount < n then f.alt.sp != 0 || !(newStack < f.regs.sp <= newStack + size)
                          else if signalCount == n then
                            f.alt.sp != newStack || newStack < f.regs.sp <= newStack + size
                          else true))
    {
      var uctx := TopFrame(k);
      var oldStack := QueryAlt(k.alt, k.regs.sp);
      signalCount := signalCount + 1;
      trace := trace + [uctx.inst];
      var wasOnAltStack := uctx.regs.sp > newStack && uctx.regs.sp - newStack <= size;
      if signalCount < n {
        if oldStack.sp != 0 || uctx.alt.sp != 0 || !wasOnAltStack { failed := true; }
      } else if signalCount == n {
        if oldStack.sp != 0 || uctx.alt.sp != newStack || wasOnAltStack { failed := true; }
      } else {
        failed := true;
      }
    }

    /** For any `n` distinct signals raised in any order, no assertion fails: the handlers run from
        the highest signal down to the lowest, and the stack is armed again at the end. */
    method Drive(abi: Abi, regs: Regs, sigs: seq<Sig>) returns (k: State)
      requires signalCount == 0 && !failed && trace == []
      requires |sigs| == n > 0 && DistinctSigs(sigs) && forall i :: 0 <= i < n ==> sigs[i] !in UNBLOCKABLE
      requires newStack > 0 && MINSIGSTKSZ <= size && Space(abi, n) <= size
      requires !Within(regs.sp, newStack, size)
      modifies this
      ensures !failed && signalCount == n
      ensures Reversed(trace) == ServiceOrder(Instances(sigs))
      ensures k.alt == On(newStack, size, true) && k.mask == {} && k.frames == [] && k.pending == []
    {
      k := SetUp(abi, regs, sigs);
      var xs := Instances(sigs);
      k := QueueAll(k, xs);
      UnblockStacksAll(k, sigs, newStack, size);
      ghost var before := k.regs;
      k := Settle(UnblockSome(k, FULL));
      k := RunHandlers(k, ServiceOrder(xs), before);
    }

    /** `main` up to its raises: stack armed, handlers installed, everything blocked. */
    method SetUp(abi: Abi, regs: Regs, sigs: seq<Sig>) returns (k: State)
      requires newStack > 0 && MINSIGSTKSZ <= size && forall i :: 0 <= i < |sigs| ==> sigs[i] !in UNBLOCKABLE
      ensures InUserMode(k) && k.abi == abi && k.frames == [] && k.pending == [] && k.mask == Filter(FULL)
      ensures k.alt == On(newStack, size, true) && k.regs.sp == regs.sp
      ensures forall i :: 0 <= i < |sigs| ==> ActionOf(k.actions, sigs[i]) == HANDLER
    {
      k := Fresh(abi, regs);
      k := ArmAlt(k, StackT(newStack, size, SS_AUTODISARM));
      k := InstallAll(k, sigs, HANDLER);
      k := BlockMore(k, FULL);
    }

    /** Runs the stacked handlers, each to its `sigreturn`. */
    method RunHandlers(k0: State, ghost order: seq<Instance>, ghost regs: Regs) returns (k: State)
      requires signalCount == 0 && !failed && trace == []
      requires n == |order| > 0 && newStack > 0 && MINSIGSTKSZ <= size
      requires !Within(regs.sp, newStack, size)
      requires InUserMode(k0) && k0.pending == [] && k0.alt == Off
      requires DisarmFrames(k0.frames, order, On(newStack, size, true), {}, regs)
      modifies this
      ensures !failed && signalCount == n && Reversed(trace) == order
      ensures k.alt == On(newStack, size, true) && k.mask == {} && k.frames == [] && k.pending == []
    {
      k := k0;
      while k.frames != []
        invariant 0 <= |k.frames| <= n && k.frames == k0.frames[..|k.frames|]
        invariant InUserMode(k) && k.pending == []
        invariant signalCount == n - |k.frames| && !failed
        invariant k.alt == if k.frames == [] then On(newStack, size, true) else Off
        invariant k.frames == [] ==> k.mask == {}
        invariant Reversed(trace) == order[|k.frames|..]
        decreases |k.frames|
      {
        var m := |k.frames| - 1;
        DisarmFrame(k0.frames, order, On(newStack, size, true), regs, m);
        assert TopFrame(k) == k0.frames[m];
        SignalHandler(k);
        assert Reversed(trace) == [order[m]] + order[m + 1..];
        k := Settle(ReturnFrom(k));
      }
    }
  }

  lemma DisarmFrame(fs: seq<Frame>, order: seq<Instance>, alt: Alt, regs: Regs, m: nat)
    requires alt.On? && DisarmFrames(fs, order, alt, {}, regs) && m < |fs|
    ensures fs[m].inst == order[m]
    ensures m == 0 ==> fs[m].alt == ToStackT(alt) && fs[m].mask == {} && fs[m].regs == regs
    ensures m > 0 ==> fs[m].alt == ToStackT(Off) && Within(fs[m].regs.sp, alt.sp, alt.size)
  {
    if m > 0 {
      assert fs[m] == fs[1..][m - 1] && order[m] == order[1..][m - 1];
    }
  }

  function Reversed(q: seq<Instance>): seq<Instance> {
    seq(|q|, i requires 0 <= i < |q| => q[|q| - 1 - i])
  }
}
