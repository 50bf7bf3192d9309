/** `sigsuspend-multiple`, `sigsuspend-mask` and the child of `rt-order-only-one`, for any queue of
    blocked signals and any number of calls: each `sigsuspend` serves one instance. */
module SuspendDriver {
  import opened Signals
  import opened Queue
  import opened Machine
  import opened Nesting
  import opened UserCalls
  import opened RealtimeOrder

  /** Everything that is pending is blocked and has a covering handler. */
  predicate Waiting(k: State) {
    && InUserMode(k) && k.frames == [] && k.mask == Filter(FULL) && AltOk(k.alt)
    && forall i :: 0 <= i < |k.pending| ==>
         k.pending[i].sig !in UNBLOCKABLE && ActionOf(k.actions, k.pending[i].sig) == COVERING
  }

  lemma WaitingCovers(k: State)
    requires Waiting(k) && k.pending != []
    ensures Filter({}) == {} && Resumable(k) && Eligible(k.pending, Filter({}))
    ensures var a := ActionOf(k.actions, k.pending[Pick(k.pending, Filter({}))].sig);
            a == COVERING && Covers(k, {}, a)
    ensures !IsIgnored(k.actions, k.pending[Pick(k.pending, Filter({}))].sig)
  {
    assert k.pending[0].sig !in Filter({});
  }

  lemma WaitingServed(k: State)
    requires Waiting(k) && k.pending != []
    ensures var q := Remove(k.pending, Pick(k.pending, {}));
            forall i :: 0 <= i < |q| ==> q[i].sig !in UNBLOCKABLE && ActionOf(k.actions, q[i].sig) == COVERING
    ensures ServiceOrder(k.pending) ==
            [k.pending[Pick(k.pending, {})]] + ServiceOrder(Remove(k.pending, Pick(k.pending, {})))
  {
    RemoveSubset(k.pending, Pick(k.pending, {}));
  }

  /** One call: the frame the handler sees, and the state after its return. */
  lemma OneSuspend(k: State) returns (t: State, u: State)
    requires Waiting(k) && k.pending != []
    ensures t == Settle(EnterSuspend(k, {})) && t.frames != [] && u == Settle(ReturnFrom(t))
    ensures TopFrame(t).regs == k.regs.(pc := k.regs.pc + SYSCALL_LENGTH, rax := -EINTR)
    ensures TopFrame(t).mask == Filter(FULL)
    ensures ServiceOrder(k.pending) == [TopFrame(t).inst] + ServiceOrder(u.pending)
    ensures Waiting(u) && u.regs == k.regs.(pc := k.regs.pc + SYSCALL_LENGTH, rax := -EINTR)
    ensures |u.pending| == |k.pending| - 1
  {
    WaitingCovers(k);
    WaitingServed(k);
    CoveredSettle(k, {});
    CoveredFrame(k, {});
    SuspendConsumesExactlyOne(k, {});
    t := Settle(EnterSuspend(k, {}));
    u := SuspendOnce(k, {});
    FrameServes(k);
  }

  lemma FrameServes(k: State)
    requires Waiting(k) && k.pending != []
    ensures CanDeliver(EnterSuspend(k, {}))
    ensures TopFrame(DeliverNext(EnterSuspend(k, {}))).inst == k.pending[Pick(k.pending, {})]
  {
    WaitingCovers(k);
    CoveredSettle(k, {});
    DeliverHandler(EnterSuspend(k, {}));
  }

  class Suspender {
    const callSite: int
    var count: nat
    var failed: bool
    ghost var trace: seq<Instance>

    constructor (callSite: int)
      ensures this.callSite == callSite && count == 0 && !failed && trace == []
    {
      this.callSite := callSite;
      count, failed, trace := 0, false, [];
    }

    /** The saved context is that of a call that failed with EINTR: RAX, an instruction pointer just
        past the system call, and the thread's own full mask rather than the temporary one. */
    method SignalHandler(uc: Frame)
      modifies this
      ensures count == old(count) + 1 && trace == old(trace) + [uc.inst]
      ensures failed == (old(failed) || uc.regs.rax != -EINTR || uc.regs.pc - 2 != callSite
                         || uc.mask != FULL - {SIGKILL, SIGSTOP})
    {
      count := count + 1;
      trace := trace + [uc.inst];
      if uc.regs.rax != -EINTR { failed := true; }
      if uc.regs.pc - 2 != callSite { failed := true; }
      if uc.mask != FULL - {SIGKILL, SIGSTOP} { failed := true; }
    }

    /** The handler, and the return from it that ends the call. */
    method HandleAndReturn(t: State, ghost u0: State) returns (u: State)
      requires t.frames != [] && u0 == Settle(ReturnFrom(t))
      requires TopFrame(t).regs.rax == -EINTR && TopFrame(t).regs.pc - 2 == callSite
      requires TopFrame(t).mask == Filter(FULL)
      modifies this
      ensures u == u0 && failed == old(failed) && count == old(count) + 1
      ensures trace == old(trace) + [TopFrame(t).inst]
    {
      SignalHandler(TopFrame(t));
      u := Settle(ReturnFrom(t));
    }

    /** The system call itself, made at `callSite`, up to its return. */
    method Sigsuspend(k: State) returns (u: State)
      requires Waiting(k) && k.pending != [] && k.regs.pc == callSite
      modifies this
      ensures failed == old(failed) && count == old(count) + 1
      ensures trace + ServiceOrder(u.pending) == old(trace) + ServiceOrder(k.pending)
      ensures Waiting(u) && u.regs.rax == -EINTR && |u.pending| == |k.pending| - 1
    {
      ghost var t0, u0 := OneSuspend(k);
      Associate(trace, TopFrame(t0).inst, ServiceOrder(u0.pending));
      u := HandleAndReturn(Settle(EnterSuspend(k, {})), u0);
    }

    /** Of what any sends of `xs` leave pending, `m` calls serve the first `m` instances in service
        order, one each; every assertion holds and the rest of the queue is still pending under the
        caller's mask. */
    method Drive(abi: Abi, regs: Regs, xs: seq<Instance>, m: nat) returns (k: State)
      requires count == 0 && !failed && trace == [] && m <= |Accepted([], xs)|
      requires forall i :: 0 <= i < |xs| ==> xs[i].sig !in UNBLOCKABLE
      modifies this
      ensures var q := Accepted([], xs);
              && !failed && count == m && |ServiceOrder(q)| == |q|
              && trace == ServiceOrder(q)[..m] && ServiceOrder(k.pending) == ServiceOrder(q)[m..]
      ensures k.mask == FULL - {SIGKILL, SIGSTOP} && k.frames == []
    {
      k := QueueUp(abi, regs, xs);
      ghost var q := k.pending;
      for i := 0 to m
        invariant Waiting(k) && |k.pending| == |q| - i && count == i == |trace| && !failed
        invariant trace + ServiceOrder(k.pending) == ServiceOrder(q)
      {
        k := k.(regs := k.regs.(pc := callSite));
        k := Sigsuspend(k);
        TraceGrows(trace, i + 1, q, k.pending);
      }
      TraceGrows(trace, m, q, k.pending);
      ServiceOrderLength(q);
    }
  }

  lemma TraceGrows(trace: seq<Instance>, n: nat, xs: seq<Instance>, q: seq<Instance>)
    requires trace + ServiceOrder(q) == ServiceOrder(xs) && |q| == |xs| - n
    ensures |trace| == n && trace == ServiceOrder(xs)[..n] && ServiceOrder(q) == ServiceOrder(xs)[n..]
  {
    ServiceOrderLength(q);
    ServiceOrderLength(xs);
  }
}
