/** `longjmp-no-overflow` for every `max`: a loop that leaves each handler by `longjmp`, with the
    64-bit counter of the program, and the same loop without the handler's mask restore. */
module LongjmpLoop {
  import opened Signals
  import opened Queue
  import opened Machine
  import opened UserCalls

  const TWO64: nat := 0x1_0000_0000_0000_0000

  type U64 = x: nat | x < TWO64

  function PlusOne(x: U64): U64 {
    (x + 1) % TWO64
  }

  const ON_USR1: Action := Handler(0x1000, {}, false, false, false, false)

  /** The state at `setjmp`: nothing live, nothing pending, the handler installed. */
  predicate AtSetjmp(k: State, sp: int) {
    && k.status.Alive? && k.sleep.Awake? && k.frames == [] && k.pending == [] && k.alt == Off
    && k.regs.sp == sp && ActionOf(k.actions, SIGUSR1) == ON_USR1
  }

  /** `raise(SIGUSR1)` while it is open: the handler is entered at once. */
  lemma RaisedOpen(k: State, sp: int)
    requires AtSetjmp(k, sp) && SIGUSR1 !in k.mask
    ensures var t := Settle(SendTo(k, USR1));
            && t.status.Alive? && t.sleep.Awake? && t.alt == Off && t.actions == k.actions && t.pending == []
            && |t.frames| == 1 && TopFrame(t).mask == k.mask && t.mask == Filter(k.mask + {SIGUSR1})
  {
    assert !Eligible(k.pending, k.mask);
    RaiseOpen(k, USR1);
    RaisedFrame(k, sp, k.log + [Entry(Sent, USR1)]);
  }

  lemma RaisedFrame(k: State, sp: int, log: seq<Entry>)
    requires AtSetjmp(k, sp)
    ensures var t := Push(k.(log := log), USR1, ON_USR1);
            && t.status.Alive? && t.sleep.Awake? && t.alt == Off && t.actions == k.actions && t.pending == []
            && |t.frames| == 1 && TopFrame(t).mask == k.mask && t.mask == Filter(k.mask + {SIGUSR1})
  {
    assert k.mask + {} + {SIGUSR1} == k.mask + {SIGUSR1};
  }

  /** `raise(SIGUSR1)` while it is blocked: it stays pending. */
  lemma RaisedBlocked(k: State, sp: int)
    requires AtSetjmp(k, sp) && SIGUSR1 in k.mask
    ensures Settle(SendTo(k, USR1)).frames == []
  {
    assert !Eligible(k.pending, k.mask);
    SendBlocked(k, USR1);
  }

  lemma UsrMask()
    ensures Filter({}) == {} && Filter({} + {SIGUSR1}) == {SIGUSR1}
  {
    assert {} + {SIGUSR1} == {SIGUSR1};
  }

  class LongjmpNoOverflow {
    var count: U64
    ghost var deliveries: nat
    ghost var peak: nat
    ghost var landings: seq<State>

    constructor ()
      ensures count == 0 && deliveries == 0 && peak == 0 && landings == []
    {
      count, deliveries, peak, landings := 0, 0, 0, [];
    }

    /** Restores the interrupted mask by hand if told to, and jumps out of the handler. */
    method SignalHandler(k: State, outside: Regs, restore: bool) returns (t: State)
      requires InUserMode(k) && k.frames != [] && k.pending == []
      modifies this`deliveries, this`peak, this`landings
      ensures !restore ==> t == Next(k, Longjmp(0, outside))
      ensures restore ==>
                && Enabled(Next(k, SetMask(TopFrame(k).mask)), Longjmp(0, outside))
                && t == Next(Next(k, SetMask(TopFrame(k).mask)), Longjmp(0, outside))
      ensures t == k.(mask := if restore then Filter(TopFrame(k).mask) else k.mask, frames := [], regs := outside)
      ensures deliveries == old(deliveries) + 1 && landings == old(landings) + [t]
      ensures peak == if |k.frames| > old(peak) then |k.frames| else old(peak)
    {
      t := k;
      if restore {
        t := Next(t, SetMask(TopFrame(t).mask));
        assert !Eligible(t.pending, t.mask);
      }
      t := Next(t, Longjmp(0, outside));
      deliveries := deliveries + 1;
      landings := landings + [t];
      if |k.frames| > peak { peak := |k.frames|; }
    }

    /** Every return to `setjmp` found the mask, stack pointer and frame depth of the start. */
    ghost predicate Landed(sp: int)
      reads this
    {
      forall i :: 0 <= i < |landings| ==>
        landings[i].mask == {} && landings[i].regs.sp == sp && landings[i].frames == []
    }

    /** `raise`, and the handler if the signal gets through. */
    method RaiseAndJump(k: State, outside: Regs, restore: bool) returns (t: State, jumped: bool)
      requires AtSetjmp(k, outside.sp) && (k.mask == {} || k.mask == {SIGUSR1})
      modifies this`deliveries, this`peak, this`landings
      ensures jumped <==> k.mask == {}
      ensures !jumped ==> deliveries == old(deliveries) && peak == old(peak) && landings == old(landings)
      ensures jumped ==> AtSetjmp(t, outside.sp) && t.mask == (if restore then {} else {SIGUSR1})
      ensures jumped ==> deliveries == old(deliveries) + 1 && landings == old(landings) + [t]
      ensures old(peak) <= 1 ==> peak <= 1
    {
      if k.mask == {} { RaisedOpen(k, outside.sp); } else { RaisedBlocked(k, outside.sp); }
      t := Settle(SendTo(k, USR1));
      jumped := t.frames != [];
      if jumped {
        UsrMask();
        assert !Eligible(t.pending, t.mask);
        t := SignalHandler(t, outside, restore);
      }
    }

    /** For every 64-bit `max` the loop with the mask restore delivers exactly `max` signals, never
        has more than one frame live, comes back to `setjmp` each time with the mask, stack pointer
        and frame depth of the start, and its assertion holds. Without the restore the second
        signal stays blocked: the assertion holds if and only if `max` is at most one. */
    method Drive(abi: Abi, regs: Regs, max: U64, restore: bool) returns (ok: bool)
      requires count == 0 && deliveries == 0 && peak == 0 && landings == []
      modifies this
      ensures ok <==> count == PlusOne(max)
      ensures restore ==> ok && deliveries == max && peak <= 1
      ensures restore ==> Landed(regs.sp) && count == (max + 1) % 0x1_0000_0000_0000_0000
      ensures !restore ==> deliveries == (if max == 0 then 0 else 1) && (ok <==> max <= 1)
    {
      var k := InstallAction(Fresh(abi, regs), SIGUSR1, ON_USR1);
      assert Filter({}) == {};
      var outside := k.regs;
      var jumped := true;
      while jumped
        invariant jumped ==> AtSetjmp(k, regs.sp) && count == deliveries <= max
        invariant jumped ==> k.mask == if restore || deliveries == 0 then {} else {SIGUSR1}
        invariant !jumped ==> count == if restore then PlusOne(max) else if max == 0 then 1 else 2
        invariant !jumped ==> deliveries == if restore then max else if max == 0 then 0 else 1
        invariant !restore ==> deliveries <= 1
        invariant restore ==> peak <= 1 && Landed(regs.sp)
        decreases if jumped then max + 1 - count else 0
      {
        var again := count < max;
        count := PlusOne(count);
        jumped := false;
        if again {
          k, jumped := RaiseAndJump(k, outside, restore);
        }
      }
      ok := count == PlusOne(max);
    }
  }
}
