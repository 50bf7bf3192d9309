/** Which signals are blocked, stated for one signal at a time: at the entry of a handler, under any
    stack of frames, after any mask calls, and after handlers that were left by `longjmp`. With them the
    two programs that read masks, `uc_mask` and `uc-oldmask`. */
module Masks {
  import opened Signals
  import opened Queue
  import opened Machine
  import opened Accounting
  import opened Nesting
  import opened UserCalls

  // ---------------------------------------------------------------- entry

  /** The handler is entered with the interrupted mask, its `sa_mask` and, without SA_NODEFER, its own
      signal blocked, and nothing else; KILL and STOP never are. */
  lemma EntryMask(s: State, k: Sig)
    requires CanDeliver(s)
    requires ActionOf(s.actions, s.pending[Pick(s.pending, s.mask)].sig).Handler?
    ensures var x := s.pending[Pick(s.pending, s.mask)];
            var a := ActionOf(s.actions, x.sig);
            k in DeliverNext(s).mask <==>
            k != SIGKILL && k != SIGSTOP && (k in s.mask || k in a.saMask || (k == x.sig && !a.noDefer))
  {
    DeliverHandler(s);
  }

  // ---------------------------------------------------------------- under frames

  /** The handler of `sig` keeps `k` out. */
  predicate AddedBy(actions: map<Sig, Action>, sig: Sig, k: Sig) {
    var a := ActionOf(actions, sig);
    a.Handler? && (k in a.saMask || (k == sig && !a.noDefer))
  }

  predicate BlockedUnder(base: set<Sig>, actions: map<Sig, Action>, fs: seq<Frame>, k: Sig) {
    k in base || (k != SIGKILL && k != SIGSTOP && exists i :: 0 <= i < |fs| && AddedBy(actions, fs[i].inst.sig, k))
  }

  predicate NoOneShots(actions: map<Sig, Action>) {
    forall k: Sig :: ActionOf(actions, k).Handler? ==> !ActionOf(actions, k).resetHand
  }

  /** No mask call, no `sigsuspend`, no `sigaction`, and handlers end by returning. */
  predicate LeavesMaskAlone(e: Event) {
    && !e.Block? && !e.Unblock? && !e.SetMask? && !e.Suspend?
    && !e.Install? && !e.EditMask? && !e.Longjmp?
  }

  /** The live mask and every saved mask are the mask below all frames and what the frames add. */
  ghost predicate Summed(base: set<Sig>, actions: map<Sig, Action>, t: State) {
    && t.actions == actions && !t.sleep.InSuspend?
    && (forall k: Sig :: k in t.mask <==> BlockedUnder(base, actions, t.frames, k))
    && (forall i, k: Sig :: 0 <= i < |t.frames| ==>
          (k in t.frames[i].mask <==> BlockedUnder(base, actions, t.frames[..i], k)))
  }

  lemma BlockedUnderOneMore(base: set<Sig>, actions: map<Sig, Action>, fs: seq<Frame>, f: Frame, k: Sig)
    ensures BlockedUnder(base, actions, fs + [f], k) <==>
            BlockedUnder(base, actions, fs, k) || (k != SIGKILL && k != SIGSTOP && AddedBy(actions, f.inst.sig, k))
  {
    var all := fs + [f];
    assert forall i :: 0 <= i < |fs| ==> all[i] == fs[i];
    assert all[|fs|] == f;
  }

  lemma SummedPush(base: set<Sig>, actions: map<Sig, Action>, t: State)
    requires base !! UNBLOCKABLE && NoOneShots(actions) && CanDeliver(t) && Summed(base, actions, t)
    requires ActionOf(t.actions, t.pending[Pick(t.pending, t.mask)].sig).Handler?
    ensures Summed(base, actions, DeliverNext(t))
  {
    DeliverHandler(t);
    var u := DeliverNext(t);
    var f := u.frames[|t.frames|];
    assert u.frames == t.frames + [f];
    forall k: Sig ensures k in u.mask <==> BlockedUnder(base, actions, u.frames, k) {
      EntryMask(t, k);
      BlockedUnderOneMore(base, actions, t.frames, f, k);
    }
    forall i, k: Sig | 0 <= i < |u.frames|
      ensures k in u.frames[i].mask <==> BlockedUnder(base, actions, u.frames[..i], k) {
      assert u.frames[..i] == t.frames[..i];
    }
  }

  lemma SummedReturn(base: set<Sig>, actions: map<Sig, Action>, t: State)
    requires base !! UNBLOCKABLE && t.frames != [] && Summed(base, actions, t)
    ensures Summed(base, actions, ReturnFrom(t))
  {
    var u := ReturnFrom(t);
    var n := |t.frames| - 1;
    forall i, k: Sig | 0 <= i < n ensures k in u.frames[i].mask <==> BlockedUnder(base, actions, u.frames[..i], k) {
      assert u.frames[..i] == t.frames[..i];
    }
  }

  /** Frames count by their instances and saved masks only. */
  predicate SameShape(fs: seq<Frame>, gs: seq<Frame>) {
    |fs| == |gs| && forall i :: 0 <= i < |fs| ==> fs[i].inst == gs[i].inst && fs[i].mask == gs[i].mask
  }

  lemma SameShapeBlocks(base: set<Sig>, actions: map<Sig, Action>, fs: seq<Frame>, gs: seq<Frame>, i: nat, k: Sig)
    requires SameShape(fs, gs) && i <= |fs|
    ensures BlockedUnder(base, actions, fs[..i], k) <==> BlockedUnder(base, actions, gs[..i], k)
  {
    assert forall j :: 0 <= j < i ==> fs[..i][j].inst == gs[..i][j].inst;
  }

  lemma OtherShape(t: State, e: Event)
    requires Enabled(t, e) && LeavesMaskAlone(e) && !e.Deliver? && !e.Return?
    ensures var u := Next(t, e);
            && SameShape(t.frames, u.frames) && u.mask == t.mask && u.actions == t.actions
            && (u.sleep.InSuspend? ==> t.sleep.InSuspend?)
  {
  }

  lemma SummedOther(base: set<Sig>, actions: map<Sig, Action>, t: State, e: Event)
    requires Summed(base, actions, t) && Enabled(t, e) && LeavesMaskAlone(e) && !e.Deliver? && !e.Return?
    ensures Summed(base, actions, Next(t, e))
  {
    OtherShape(t, e);
    var fs, gs := t.frames, Next(t, e).frames;
    forall i, k: Sig | 0 <= i <= |fs|
      ensures BlockedUnder(base, actions, fs[..i], k) <==> BlockedUnder(base, actions, gs[..i], k) {
      SameShapeBlocks(base, actions, fs, gs, i, k);
    }
    assert fs[..|fs|] == fs && gs[..|gs|] == gs;
  }

  lemma SummedStep(base: set<Sig>, actions: map<Sig, Action>, t: State, e: Event)
    requires base !! UNBLOCKABLE && NoOneShots(actions) && Summed(base, actions, t)
    requires Enabled(t, e) && LeavesMaskAlone(e)
    ensures Summed(base, actions, Next(t, e))
  {
    if e.Deliver? {
      var x, g := DeliverShape(t);
      if g == Handled { SummedPush(base, actions, t); }
    } else if e.Return? {
      SummedReturn(base, actions, t);
    } else {
      SummedOther(base, actions, t, e);
    }
  }

  /** Over any run in which nobody touches a mask, however handlers nest and return: a signal is blocked
      if and only if the program below all handlers blocks it, or one of the live frames' actions does;
      and the mask a frame has saved is that of the frames below it. */
  lemma {:induction false} LiveMaskIsSumOfFrames(s: State, es: seq<Event>)
    requires Reachable(s) && s.frames == [] && !s.sleep.InSuspend? && NoOneShots(s.actions)
    requires Throughout(s, es, (_, e) => LeavesMaskAlone(e))
    ensures Feasible(s, es) && Summed(s.mask, s.actions, Exec(s, es))
  {
    ReachableIsResumable(s);
    var ok := (_: State, e: Event) => LeavesMaskAlone(e);
    var inv := (t: State) => Summed(s.mask, s.actions, t);
    forall t, e | inv(t) && Enabled(t, e) && ok(t, e) ensures inv(Next(t, e)) {
      SummedStep(s.mask, s.actions, t, e);
    }
    assert Throughout(s, es, ok);
    RunInduction(s, es, ok, inv);
  }

  // ---------------------------------------------------------------- mask calls

  /** Whether `k` is blocked after a run, if it was before: the last call that says something about
      it decides. */
  function BlockedAfter(before: bool, es: seq<Event>, k: Sig): bool
    decreases |es|
  {
    if es == [] then before else BlockedAfter(Decided(before, es[0], k), es[1..], k)
  }

  function Decided(before: bool, e: Event, k: Sig): bool {
    match e
    case Block(m) => before || (k in m && k != SIGKILL && k != SIGSTOP)
    case Unblock(m) => before && k !in m
    case SetMask(m) => k in m && k != SIGKILL && k != SIGSTOP
    case _ => before
  }

  /** Handlers are neither entered nor left by returning, and nobody suspends. */
  predicate OnlyMaskCalls(e: Event) {
    !e.Deliver? && !e.Return? && !e.Suspend?
  }

  /** Over any such run, whatever else happens in it (sends, waits, `sigaction`, `sigaltstack`, edits of
      saved contexts, blocking calls, `longjmp`), the mask is what its mask calls make of it. */
  lemma {:induction false} MaskCallsDecide(s: State, es: seq<Event>, k: Sig)
    requires Throughout(s, es, (_, e) => OnlyMaskCalls(e))
    ensures Feasible(s, es) && (k in Exec(s, es).mask <==> BlockedAfter(k in s.mask, es, k))
    decreases |es|
  {
    ThroughoutIsFeasible(s, es, (_, e) => OnlyMaskCalls(e));
    if es != [] {
      MaskCallsDecide(Next(s, es[0]), es[1..], k);
    }
  }

  // ---------------------------------------------------------------- handlers left by longjmp

  /** Handlers are left by `longjmp` alone, nobody unblocks, and nobody asks for SA_NODEFER. */
  predicate OnlyJumps(e: Event) {
    && !e.Return? && !e.Unblock? && !e.SetMask? && !e.Suspend?
    && (e.Install? && e.action.Handler? ==> !e.action.noDefer)
  }

  /** Since `s`, only signals that are blocked by now were handled, and none of them twice. */
  ghost predicate HandledStayBlocked(s: State, t: State) {
    && Unblockable(t) && !t.sleep.InSuspend? && s.mask <= t.mask
    && (forall k: Sig :: ActionOf(t.actions, k).Handler? ==> !ActionOf(t.actions, k).noDefer)
    && forall k: Sig :: HandledCount(t.log, k) <= HandledCount(s.log, k) + (if k in t.mask - s.mask then 1 else 0)
  }

  lemma JumpDeliver(s: State, t: State)
    requires CanDeliver(t) && HandledStayBlocked(s, t)
    ensures HandledStayBlocked(s, DeliverNext(t))
  {
    var u := DeliverNext(t);
    var x, f := DeliverShape(t);
    StepKeepsUnblockable(t, Deliver);
    forall k: Sig ensures ActionOf(u.actions, k) == ActionOf(t.actions, k) || ActionOf(u.actions, k) == Default {}
    assert t.mask <= u.mask && (f == Handled ==> x.sig in u.mask);
    forall k: Sig
      ensures HandledCount(u.log, k) <= HandledCount(s.log, k) + (if k in u.mask - s.mask then 1 else 0) {
      HandledCountOne(t.log, Entry(f, x), k);
    }
  }

  lemma JumpSend(s: State, t: State, x: Instance)
    requires HandledStayBlocked(s, t)
    ensures HandledStayBlocked(s, SendTo(t, x))
  {
    StepKeepsUnblockable(t, Send(x));
    forall k: Sig ensures HandledCount(SendTo(t, x).log, k) == HandledCount(t.log, k) {
      HandledCountOne(t.log, Entry(Sent, x), k);
      HandledCountOne(t.log + [Entry(Sent, x)], Entry(Discarded, x), k);
      HandledCountOne(t.log + [Entry(Sent, x)], Entry(Coalesced, x), k);
    }
  }

  lemma JumpInstall(s: State, t: State, sig: Sig, a: Action)
    requires InUserMode(t) && HandledStayBlocked(s, t) && (a.Handler? ==> !a.noDefer)
    ensures HandledStayBlocked(s, InstallAction(t, sig, a))
  {
    StepKeepsUnblockable(t, Install(sig, a));
    var u := InstallAction(t, sig, a);
    forall k: Sig ensures ActionOf(u.actions, k).Handler? ==> !ActionOf(u.actions, k).noDefer {
      assert ActionOf(t.actions, k).Handler? ==> !ActionOf(t.actions, k).noDefer;
    }
    forall k: Sig ensures HandledCount(InstallAction(t, sig, a).log, k) == HandledCount(t.log, k) {
      DiscardsAreNotHandled(OnlySig(t.pending, sig), k);
      HandledCountConcat(t.log, AllDiscarded(OnlySig(t.pending, sig)), k);
    }
  }

  lemma JumpWait(s: State, t: State, m: set<Sig>)
    requires InUserMode(t) && HandledStayBlocked(s, t)
    ensures HandledStayBlocked(s, WaitFor(t, m))
  {
    StepKeepsUnblockable(t, WaitInfo(m));
    var i := Pick(t.pending, FULL - m);
    forall k: Sig ensures HandledCount(WaitFor(t, m).log, k) == HandledCount(t.log, k) {
      if i < |t.pending| { HandledCountOne(t.log, Entry(Waited, t.pending[i]), k); }
    }
  }

  lemma JumpStep(s: State, t: State, e: Event)
    requires HandledStayBlocked(s, t) && Enabled(t, e) && OnlyJumps(e)
    ensures HandledStayBlocked(s, Next(t, e))
  {
    match e
    case Deliver => JumpDeliver(s, t);
    case Send(x) => JumpSend(s, t, x);
    case Install(sig, a) => JumpInstall(s, t, sig, a);
    case WaitInfo(m) => JumpWait(s, t, m);
    case _ => LocalStepShape(t, e); StepKeepsUnblockable(t, e);
  }

  /** A `longjmp` out of a handler restores nothing: over any run in which handlers are left that way
      alone, each signal is handled at most once, and stays blocked from then on. */
  lemma {:induction false} JumpedFromStaysBlocked(s: State, es: seq<Event>, k: Sig)
    requires Unblockable(s) && !s.sleep.InSuspend? && Throughout(s, es, (_, e) => OnlyJumps(e))
    requires forall j: Sig :: ActionOf(s.actions, j).Handler? ==> !ActionOf(s.actions, j).noDefer
    ensures Feasible(s, es)
    ensures var t := Exec(s, es);
            var runs := HandledCount(t.log, k) - HandledCount(s.log, k);
            runs <= 1 && (runs == 1 ==> k !in s.mask && k in t.mask)
  {
    var ok := (_: State, e: Event) => OnlyJumps(e);
    var inv := (t: State) => HandledStayBlocked(s, t);
    forall t, e | inv(t) && Enabled(t, e) && ok(t, e) ensures inv(Next(t, e)) {
      JumpStep(s, t, e);
    }
    assert Throughout(s, es, ok);
    RunInduction(s, es, ok, inv);
  }

  // ---------------------------------------------------------------- the programs

  /** Raising an open signal with a handler and returning from it at once. */
  lemma RaiseAndReturnMask(k: State, sig: Sig)
    requires InUserMode(k) && k.pending == [] && k.frames == [] && k.mask !! UNBLOCKABLE && sig !in k.mask
    requires ActionOf(k.actions, sig).Handler?
    ensures var t := Settle(SendTo(k, Instance(sig, 0)));
            var a := ActionOf(k.actions, sig);
            && |t.frames| == 1 && TopFrame(t).mask == k.mask
            && t.mask == k.mask + a.saMask + (if a.noDefer then {} else {sig}) - {SIGKILL, SIGSTOP}
            && Settle(ReturnFrom(t)).mask == k.mask && Settle(ReturnFrom(t)).frames == []
  {
    var x := Instance(sig, 0);
    var a := ActionOf(k.actions, sig);
    var s := SendTo(k, x);
    SendOnly(k, x);
    DeliverOnly(s, x);
    SettleStep(s);
    SettleQuiet(DeliverNext(s));
    forall j: Sig ensures j in DeliverNext(s).mask <==>
        j in k.mask + a.saMask + (if a.noDefer then {} else {sig}) - {SIGKILL, SIGSTOP} {
      EntryMask(s, j);
    }
    var u := ReturnFrom(DeliverNext(s));
    assert Filter(k.mask) == k.mask && !Eligible(u.pending, u.mask);
    SettleQuiet(u);
  }

  /** `main` of both programs up to its `raise`. */
  method SetUp(abi: Abi, regs: Regs, blocked: set<Sig>, sig: Sig, saMask: set<Sig>) returns (k: State)
    requires sig !in blocked && sig !in UNBLOCKABLE
    ensures InUserMode(k) && k.pending == [] && k.frames == []
    ensures k.mask == blocked - {SIGKILL, SIGSTOP}
    ensures var a := ActionOf(k.actions, sig);
            a.Handler? && !a.noDefer && a.saMask == saMask - {SIGKILL, SIGSTOP}
  {
    k := BlockMore(Fresh(abi, regs), blocked);
    k := InstallAction(k, sig, Handler(0x1000, saMask, false, false, false, false));
  }

  class UcMask {
    const probe: Sig
    var failed: bool
    ghost var live: set<Sig>
    ghost var saved: set<Sig>

    constructor (probe: Sig)
      ensures this.probe == probe && !failed
    {
      this.probe, failed, live, saved := probe, false, {}, {};
    }

    /** The handler's two assertions: the probe is not in the saved mask, and it is in the live one. */
    method SignalHandler(current: set<Sig>, uc: Frame)
      modifies this
      ensures failed == (old(failed) || probe in uc.mask || probe !in current)
      ensures live == current && saved == uc.mask
    {
      if probe in uc.mask { failed := true; }
      if probe !in current { failed := true; }
      live, saved := current, uc.mask;
    }

    /** For any `sa_mask` and any mask of the caller that leaves the raised signal open: the handler sees
        exactly both and its own signal, its frame exactly the caller's, and the caller has exactly its
        own again. The assertions hold if and only if the probe is the signal or in `sa_mask`, is not
        blocked by the caller and can be blocked at all. */
    method Drive(abi: Abi, regs: Regs, caller: set<Sig>, sig: Sig, saMask: set<Sig>) returns (after: set<Sig>)
      requires !failed && sig !in caller && sig !in UNBLOCKABLE
      modifies this
      ensures live == caller + saMask + {sig} - {SIGKILL, SIGSTOP}
      ensures after == saved == caller - {SIGKILL, SIGSTOP}
      ensures !failed <==> (probe in saMask || probe == sig) && probe !in caller && probe !in UNBLOCKABLE
    {
      var k := SetUp(abi, regs, caller, sig, saMask);
      EntryUnion(caller, saMask, sig);
      after := RaiseOnce(k, sig);
    }

    method RaiseOnce(k: State, sig: Sig) returns (after: set<Sig>)
      requires InUserMode(k) && k.pending == [] && k.frames == [] && k.mask !! UNBLOCKABLE && sig !in k.mask
      requires ActionOf(k.actions, sig).Handler? && !ActionOf(k.actions, sig).noDefer
      modifies this
      ensures live == k.mask + ActionOf(k.actions, sig).saMask + {sig} - {SIGKILL, SIGSTOP}
      ensures after == saved == k.mask
      ensures failed == (old(failed) || probe in saved || probe !in live)
    {
      RaiseAndReturnMask(k, sig);
      var t := Settle(SendTo(k, Instance(sig, 0)));
      SignalHandler(t.mask, TopFrame(t));
      after := Settle(ReturnFrom(t)).mask;
    }
  }

  lemma EntryUnion(a: set<Sig>, b: set<Sig>, sig: Sig)
    ensures var no := {SIGKILL, SIGSTOP}; (a - no) + (b - no) + {sig} - no == a + b + {sig} - no
  {
  }

  class UcOldmask {
    var handlerRan: bool
    var expectedMask: set<Sig>
    var failed: bool

    constructor ()
      ensures !handlerRan && expectedMask == {} && !failed
    {
      handlerRan, expectedMask, failed := false, {}, false;
    }

    method SignalHandler(uc: Frame)
      modifies this`handlerRan, this`failed
      ensures handlerRan && failed == (old(failed) || uc.mask != expectedMask)
    {
      handlerRan := true;
      if uc.mask != expectedMask { failed := true; }
    }

    /** For any blocked set that leaves the raised signal open: the handler runs, and its frame holds
        exactly the set the program computes for itself. */
    method Drive(abi: Abi, regs: Regs, blocked: set<Sig>, sig: Sig)
      requires !handlerRan && !failed && sig !in blocked && sig !in UNBLOCKABLE
      modifies this
      ensures handlerRan && !failed && expectedMask == blocked - {SIGKILL, SIGSTOP}
    {
      var k := SetUp(abi, regs, blocked, sig, {});
      expectedMask := blocked - {SIGKILL, SIGSTOP};
      RaiseAndReturnMask(k, sig);
      k := Settle(SendTo(k, Instance(sig, 0)));
      var entered := k.frames != [];
      if entered { SignalHandler(TopFrame(k)); }
    }
  }
}
