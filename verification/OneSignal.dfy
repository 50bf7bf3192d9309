/** Programs that raise one signal over and over: `same-signal`, `nodefer`, `multiple-standard`. */
module OneSignal {
  import opened Signals
  import opened Queue
  import opened Machine
  import opened Nesting
  import opened UserCalls

  /** Two states that differ in their logs only. */
  predicate SameButLog(s: State, t: State) {
    t == s.(log := t.log)
  }

  // ---------------------------------------------------------------- same-signal, multiple-standard

  const DEFERRING: Action := Handler(0x1000, {}, false, false, false, false)

  /** No handler is live and nothing is blocked. */
  predicate Quiescent(s: State) {
    && s.status.Alive? && s.sleep.Awake? && s.frames == [] && s.alt == Off
    && s.mask == {} && ActionOf(s.actions, SIGUSR1) == DEFERRING
  }

  /** In the handler: SIGUSR1 is blocked, and the queue is empty or holds one more. */
  predicate InHandler(s: State) {
    && InUserMode(s) && |s.frames| == 1 && s.frames[0].mask == {} && s.frames[0].alt == ToStackT(Off)
    && s.mask == {SIGUSR1} && s.alt == Off && ActionOf(s.actions, SIGUSR1) == DEFERRING
    && (s.pending == [] || s.pending == [USR1])
  }

  lemma RaiseInHandler(s: State)
    requires InHandler(s)
    ensures var t := Settle(SendTo(s, USR1)); InHandler(t) && t.pending == [USR1]
  {
    var t := SendTo(s, USR1);
    assert [] + [USR1] == [USR1];
    if s.pending == [USR1] { assert s.pending[0].sig == SIGUSR1; }
    assert t.pending == [USR1];
    SettleQuiet(t);
  }

  lemma ReturnFromHandler(s: State)
    requires InHandler(s)
    ensures var t := Settle(ReturnFrom(s));
            if s.pending == [] then Quiescent(t) && t.pending == [] else InHandler(t) && t.pending == []
  {
    var u := ReturnFrom(s);
    assert Filter({}) == {};
    if s.pending == [] {
      assert !Eligible(u.pending, u.mask);
      SettleQuiet(u);
    } else {
      EnterHandler(u);
    }
  }

  lemma EnterHandler(u: State)
    requires Quiescent(u) && u.pending == [USR1]
    ensures InHandler(Settle(u)) && Settle(u).pending == []
  {
    DeliverOnly(u, USR1);
    SettleStep(u);
    SettleQuiet(DeliverNext(u));
    assert Filter({} + {} + {SIGUSR1}) == {SIGUSR1};
  }

  class SameSignal {
    var inside: bool
    var count: nat
    var failed: bool

    constructor ()
      ensures !inside && count == 0 && !failed
    {
      inside, count, failed := false, 0, false;
    }

    /** On its first `rounds` calls the handler raises its own signal `burst` times. */
    method SignalHandler(k: State, rounds: nat, burst: nat) returns (t: State)
      requires InHandler(k) && k.pending == [] && burst > 0
      modifies this
      ensures InHandler(t) && (t.pending == [USR1] <==> count <= rounds)
      ensures count == old(count) + 1 && !inside && failed == (old(failed) || old(inside))
    {
      t := k;
      if inside { failed := true; }
      inside := true;
      count := count + 1;
      if count <= rounds {
        for i := 0 to burst
          invariant InHandler(t) && (i > 0 ==> t.pending == [USR1])
          invariant count == old(count) + 1 && failed == (old(failed) || old(inside))
        {
          RaiseInHandler(t);
          t := Settle(SendTo(t, USR1));
        }
      }
      inside := false;
    }

    /** However often and however many times at once the handler raises its own signal, it is never
        entered while it runs, and what it raises together is one further call. */
    method Drive(abi: Abi, regs: Regs, rounds: nat, burst: nat) returns (k: State)
      requires !inside && count == 0 && !failed && burst > 0
      modifies this
      ensures !failed && count == rounds + 1 && k.frames == [] && k.pending == [] && k.mask == {}
    {
      k := RaiseFirst(abi, regs);
      while k.frames != []
        invariant k.pending == [] && (if k.frames == [] then Quiescent(k) else InHandler(k))
        invariant !failed && !inside
        invariant if k.frames == [] then count == rounds + 1 else count <= rounds
        decreases rounds + 1 - count
      {
        k := OneCall(k, rounds, burst);
      }
    }

    method RaiseFirst(abi: Abi, regs: Regs) returns (k: State)
      ensures InHandler(k) && k.pending == []
    {
      k := InstallAction(Fresh(abi, regs), SIGUSR1, DEFERRING);
      assert Filter({}) == {};
      var s := SendTo(k, USR1);
      assert s.pending == [USR1];
      EnterHandler(s);
      k := Settle(s);
    }

    /** One call of the handler, its return, and the entry of the next call if there is one. */
    method OneCall(k: State, rounds: nat, burst: nat) returns (t: State)
      requires InHandler(k) && k.pending == [] && burst > 0 && count <= rounds
      modifies this
      ensures count == old(count) + 1 && !inside && failed == (old(failed) || old(inside))
      ensures t.pending == [] && (if count <= rounds then InHandler(t) else Quiescent(t))
    {
      t := SignalHandler(k, rounds, burst);
      ReturnFromHandler(t);
      t := Settle(ReturnFrom(t));
    }
  }

  class MultipleStandard {
    var count: nat

    constructor ()
      ensures count == 0
    {
      count := 0;
    }

    /** Any number of raises of a blocked standard signal make one call after the unblock. */
    method Drive(abi: Abi, regs: Regs, raises: nat) returns (k: State, before: nat)
      requires count == 0
      modifies this
      ensures before == 0 && count == if raises == 0 then 0 else 1
      ensures k.frames == [] && k.pending == [] && k.mask == {}
    {
      k := SetUp(abi, regs);
      for i := 0 to raises
        invariant Blocked(k) && count == 0
        invariant k.pending == if i == 0 then [] else [USR1]
      {
        k := RaiseBlocked(k);
      }
      before := count;
      k := UnblockAndHandle(k);
    }

    method SetUp(abi: Abi, regs: Regs) returns (k: State)
      ensures Blocked(k) && k.pending == []
    {
      k := InstallAction(Fresh(abi, regs), SIGUSR1, DEFERRING);
      assert Filter({}) == {} && SIGUSR1 in FULL;
      k := BlockMore(k, FULL);
    }

    method UnblockAndHandle(k: State) returns (t: State)
      requires Blocked(k) && count == 0
      modifies this
      ensures count == |k.pending|
      ensures t.frames == [] && t.pending == [] && t.mask == {}
    {
      var s := UnblockSome(k, FULL);
      assert s.mask == {} && Quiescent(s);
      if k.pending == [] { SettleQuiet(s); } else { EnterHandler(s); }
      t := Settle(s);
      if t.frames != [] {
        count := count + 1;
        ReturnFromHandler(t);
        t := Settle(ReturnFrom(t));
      }
    }
  }

  predicate Blocked(k: State) {
    && InUserMode(k) && k.frames == [] && k.alt == Off && k.mask == Filter(FULL)
    && ActionOf(k.actions, SIGUSR1) == DEFERRING && (k.pending == [] || k.pending == [USR1])
  }

  method RaiseBlocked(k: State) returns (t: State)
    requires Blocked(k)
    ensures Blocked(t) && t.pending == [USR1]
  {
    t := SendTo(k, USR1);
    assert [] + [USR1] == [USR1] && SIGUSR1 in FULL;
    if k.pending == [USR1] { assert k.pending[0].sig == SIGUSR1; }
    assert t.pending == [USR1];
    SettleQuiet(t);
    t := Settle(t);
  }

  // ---------------------------------------------------------------- nodefer

  const NODEFER: Action := Handler(0x1000, {}, false, true, false, false)

  class NoDefer {
    const limit: nat
    var finished: bool
    var count: nat
    var failed: bool
    ghost var peak: nat

    constructor (limit: nat)
      ensures this.limit == limit && !finished && count == 0 && !failed && peak == 0
    {
      this.limit := limit;
      finished, count, failed, peak := false, 0, false, 0;
    }

    /** Under SA_NODEFER nothing is blocked in the handler. */
    ghost predicate Open(k: State) {
      && InUserMode(k) && k.pending == [] && k.mask == {} && k.alt == Off
      && ActionOf(k.actions, SIGUSR1) == NODEFER
    }

    /** The handler re-enters itself through `raise`, before `raise` returns. */
    method SignalHandler(k: State) returns (t: State)
      requires Open(k) && count <= limit && |k.frames| == count + 1
      modifies this
      ensures Open(t) && SameButLog(k, t)
      ensures finished && count == limit && peak == limit + 1
      ensures failed == (old(failed) || old(finished))
      decreases limit - count
    {
      t := k;
      peak := |k.frames|;
      if finished { failed := true; }
      if count < limit {
        count := count + 1;
        RaiseOpen(t, USR1);
        NestedPush(t);
        var u := SignalHandler(Settle(SendTo(t, USR1)));
        NestedReturn(t, u);
        t := Settle(ReturnFrom(u));
      }
      finished := true;
    }

    lemma NestedPush(k: State)
      requires Open(k)
      ensures var s := Settle(SendTo(k, USR1));
              && s == Push(k.(log := k.log + [Entry(Sent, USR1)]), USR1, NODEFER)
              && Open(s) && |s.frames| == |k.frames| + 1
    {
      RaiseOpen(k, USR1);
      assert Filter({} + {} + {}) == {};
    }

    lemma NestedReturn(k: State, u: State)
      requires Open(k) && Open(u) && u.frames != [] && SameButLog(Settle(SendTo(k, USR1)), u)
      ensures Settle(ReturnFrom(u)) == ReturnFrom(u) && Open(ReturnFrom(u)) && SameButLog(k, ReturnFrom(u))
    {
      NestedPush(k);
      var s := k.(log := k.log + [Entry(Sent, USR1)]);
      PushThenReturn(s, USR1, NODEFER);
      assert u == Push(s, USR1, NODEFER).(log := u.log);
      assert ReturnFrom(u) == ReturnFrom(Push(s, USR1, NODEFER)).(log := u.log);
      SettleQuiet(ReturnFrom(u));
    }

    /** For every `limit`: that many raises nest that many deep, the innermost handler finishes
        first, no assertion fails, and the program is back where it raised the first signal. */
    method Drive(abi: Abi, regs: Regs) returns (k: State)
      requires !finished && count == 0 && !failed && peak == 0
      modifies this
      ensures !failed && count == limit && peak == limit + 1
      ensures k.frames == [] && k.pending == [] && k.mask == {} && k.regs == regs.(rax := 0)
    {
      k := InstallAction(Fresh(abi, regs), SIGUSR1, NODEFER);
      assert Filter({}) == {};
      NestedPush(k);
      var u := SignalHandler(Settle(SendTo(k, USR1)));
      NestedReturn(k, u);
      k := Settle(ReturnFrom(u));
    }
  }
}
