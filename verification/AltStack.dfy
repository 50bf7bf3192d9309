/** The alternate-stack setting over whole runs: rejected requests leave no trace, handlers give the
    setting back, and a query outside handlers returns the last request that was accepted. */
module AltStack {
  import opened Signals
  import opened Queue
  import opened Machine
  import opened Nesting
  import opened UserCalls
  import Layout

  /** Handlers may set other alternate stacks, but none that claims the stack of the interrupted program,
      and they leave its context alone, except that its own handler may edit `uc_stack` at will. */
  predicate KeepsSettings(t: State, e: Event) {
    t.frames != [] ==>
      && (|t.frames| == 1 ==> !e.EditRegs?)
      && (e.Longjmp? ==> 0 < e.depth)
      && (e.SetAlt? || (e.EditAlt? && 1 < |t.frames|) ==> !OnAlt(AltOf(e.req), t.frames[0].regs.sp))
  }

  /** `acc` is the last setting accepted from the program, `req` what its handler's frame asks for. */
  datatype Track = Track(acc: Alt, req: StackT)

  function Settled(acc: Alt): Track {
    Track(acc, ToStackT(acc))
  }

  /** A request is accepted outside handlers, or written to `uc_stack` and accepted by the return. */
  function Noted(s: State, e: Event, tr: Track): Track {
    if s.frames == [] && e.SetAlt? && AltError(s.alt, s.regs.sp, e.req) == 0 then Settled(AltOf(e.req))
    else if |s.frames| == 1 && e.EditAlt? then tr.(req := e.req)
    else if |s.frames| == 1 && e.Return? && tr != Settled(tr.acc) then
      Settled(ChangeAlt(s.alt, s.frames[0].regs.sp, tr.req))
    else tr
  }

  /** The last request accepted along a run, or the setting it started with. */
  ghost function LastAccepted(s: State, es: seq<Event>, tr: Track): Track
    requires Feasible(s, es)
    decreases |es|
  {
    if es == [] then tr else LastAccepted(Next(s, es[0]), es[1..], Noted(s, es[0], tr))
  }

  /** `acc` is live, or comes back unless `req` replaces it: no setting to be restored meanwhile gets in
      the way. */
  predicate Remembers(t: State, tr: Track) {
    && AltOk(tr.acc) && AltOk(t.alt)
    && (if t.frames == [] then t.alt == tr.acc && tr == Settled(tr.acc)
        else
          && t.frames[0].alt == tr.req
          && (t.alt == tr.acc || !OnAlt(t.alt, t.frames[0].regs.sp))
          && forall k :: 0 < k < |t.frames| ==>
               AltOf(t.frames[k].alt) == tr.acc || !OnAlt(AltOf(t.frames[k].alt), t.frames[0].regs.sp))
  }

  lemma RemembersDeliver(t: State, tr: Track)
    requires CanDeliver(t) && Remembers(t, tr)
    ensures Remembers(DeliverNext(t), tr)
  {
    StackTRoundTrip(t.alt);
    if ActionOf(t.actions, t.pending[Pick(t.pending, t.mask)].sig).Handler? {
      DeliverHandler(t);
      var u := DeliverNext(t);
      assert forall k :: 0 <= k < |t.frames| ==> u.frames[k] == t.frames[k];
    }
  }

  lemma RemembersReturn(t: State, tr: Track)
    requires Enabled(t, Return) && Remembers(t, tr)
    ensures Remembers(ReturnFrom(t), Noted(t, Return, tr))
  {
    if |t.frames| == 1 && tr == Settled(tr.acc) {
      RestoreAltExact(t.alt, tr.acc, t.frames[0].regs.sp);
    }
  }

  lemma RemembersInside(t: State, e: Event, tr: Track)
    requires Enabled(t, e) && KeepsSettings(t, e) && Remembers(t, tr)
    requires e.EditMask? || e.EditAlt? || e.EditRegs? || e.Longjmp?
    ensures Remembers(Next(t, e), Noted(t, e, tr))
  {
  }

  lemma RemembersOther(t: State, e: Event, tr: Track)
    requires Enabled(t, e) && KeepsSettings(t, e) && Remembers(t, tr)
    requires !e.Deliver? && !e.Return? && !e.EditMask? && !e.EditAlt? && !e.EditRegs? && !e.Longjmp?
    ensures Remembers(Next(t, e), Noted(t, e, tr))
  {
    var u := Next(t, e);
    assert u.frames == t.frames;
    if e.SetAlt? {
      assert AltOk(t.alt) ==> AltOk(u.alt);
    } else {
      assert u.alt == t.alt;
    }
  }

  lemma RemembersStep(t: State, e: Event, tr: Track)
    requires Enabled(t, e) && KeepsSettings(t, e) && Remembers(t, tr)
    ensures Remembers(Next(t, e), Noted(t, e, tr))
  {
    match e
    case Deliver => RemembersDeliver(t, tr);
    case Return => RemembersReturn(t, tr);
    case EditMask(_) => RemembersInside(t, e, tr);
    case EditAlt(_) => RemembersInside(t, e, tr);
    case EditRegs(_) => RemembersInside(t, e, tr);
    case Longjmp(_, _) => RemembersInside(t, e, tr);
    case _ => RemembersOther(t, e, tr);
  }

  /** Over any run, whatever was rejected and whatever handlers did meanwhile: outside handlers the
      setting is the last one accepted from the program or written to its handler's `uc_stack`, and a
      query returns it, with SS_ONSTACK added exactly when the stack pointer lies in it. */
  lemma {:induction false} QueryReturnsLastAccepted(s: State, es: seq<Event>)
    requires s.frames == [] && AltOk(s.alt)
    requires Throughout(s, es, KeepsSettings)
    ensures Feasible(s, es)
    ensures var t := Exec(s, es);
            var tr := LastAccepted(s, es, Settled(s.alt));
            && Remembers(t, tr)
            && (t.frames == [] ==>
                  && t.alt == tr.acc
                  && QueryAlt(t.alt, t.regs.sp) ==
                     if tr.acc.On? && !tr.acc.autodisarm && tr.acc.sp < t.regs.sp <= tr.acc.sp + tr.acc.size
                     then StackT(tr.acc.sp, tr.acc.size, SS_ONSTACK) else ToStackT(tr.acc))
  {
    ThroughoutIsFeasible(s, es, KeepsSettings);
    RunRemembers(s, es, Settled(s.alt));
  }

  lemma {:induction false} RunRemembers(s: State, es: seq<Event>, tr: Track)
    requires Remembers(s, tr) && Throughout(s, es, KeepsSettings) && Feasible(s, es)
    ensures Remembers(Exec(s, es), LastAccepted(s, es, tr))
    decreases |es|
  {
    if es != [] {
      RemembersStep(s, es[0], tr);
      RunRemembers(Next(s, es[0]), es[1..], Noted(s, es[0], tr));
    }
  }

  /** A setting that was queried anywhere, also while in use, can be set again from outside it: that
      succeeds and changes nothing. */
  lemma QueriedSettingIsAccepted(s: State, sp: int)
    requires Enabled(s, SetAlt(QueryAlt(s.alt, sp))) && AltOk(s.alt)
    requires s.alt.On? ==> s.regs.sp <= s.alt.sp || s.alt.sp + s.alt.size < s.regs.sp
    ensures Next(s, SetAlt(QueryAlt(s.alt, sp))) == s.(regs := s.regs.(rax := 0))
  {
    StackTRoundTrip(s.alt);
    assert s.alt.On? && !s.alt.autodisarm ==> AltOf(StackT(s.alt.sp, s.alt.size, SS_ONSTACK)) == s.alt;
  }

  // ---------------------------------------------------------------- the programs

  function Plain(onStack: bool): Action {
    Handler(0x1000, {}, onStack, false, false, false)
  }

  /** The thread with a plain handler entered. */
  function Entered(k: State, sig: Sig, onStack: bool): State {
    var s := InstallAction(k, sig, Plain(onStack));
    Push(s.(log := s.log + [Entry(Sent, Instance(sig, 0))]), Instance(sig, 0), Plain(onStack))
  }

  predicate Calm(k: State) {
    InUserMode(k) && k.pending == [] && k.mask == {} && k.frames == [] && AltOk(k.alt)
  }

  /** Installing a plain handler and raising its signal enters it. */
  lemma RaisePlain(k: State, sig: Sig, onStack: bool)
    requires Calm(k) && sig !in UNBLOCKABLE
    ensures Settle(SendTo(InstallAction(k, sig, Plain(onStack)), Instance(sig, 0))) == Entered(k, sig, onStack)
  {
    assert Filter({}) == {};
    RaiseOpen(InstallAction(k, sig, Plain(onStack)), Instance(sig, 0));
  }

  lemma EnteredFacts(k: State, sig: Sig, onStack: bool)
    requires Calm(k) && sig !in UNBLOCKABLE
    ensures var t := Entered(k, sig, onStack);
            && t.frames != [] && t.regs.sp == EntrySp(k.abi, FrameTop(k.abi, k.alt, k.regs.sp, onStack))
            && TopFrame(t).alt == ToStackT(k.alt)
            && (k.alt.On? && !k.alt.autodisarm ==> t.alt == k.alt)
  {
  }

  lemma ReturnPlain(k: State, sig: Sig, onStack: bool)
    requires Calm(k) && sig !in UNBLOCKABLE
    ensures var t := Entered(k, sig, onStack);
            && t.frames != []
            && var u := Settle(ReturnFrom(t));
               Calm(u) && u.alt == k.alt && u.abi == k.abi && u.regs.sp == k.regs.sp
  {
    var x := Instance(sig, 0);
    var s := InstallAction(k, sig, Plain(onStack));
    var s1 := s.(log := s.log + [Entry(Sent, x)]);
    assert Filter({}) == {};
    PushThenReturn(s1, x, Plain(onStack));
    assert !Eligible(s1.pending, s1.mask);
    SettleQuiet(ReturnFrom(Entered(k, sig, onStack)));
  }

  /** Installing a plain handler, raising its signal and returning: the frame's entry address, and a
      thread that is as before. */
  lemma RaiseAndReturn(k: State, sig: Sig, onStack: bool)
    requires Calm(k) && sig !in UNBLOCKABLE
    ensures var s := InstallAction(k, sig, Plain(onStack));
            var t := Settle(SendTo(s, Instance(sig, 0)));
            && t.frames != [] && t.regs.sp == EntrySp(k.abi, FrameTop(k.abi, k.alt, k.regs.sp, onStack))
            && TopFrame(t).alt == ToStackT(k.alt)
            && t.regs.sp % 16 == 16 - WordSize(k.abi)
            && (k.alt.On? && !k.alt.autodisarm ==> t.alt == k.alt)
            && var u := Settle(ReturnFrom(t));
               Calm(u) && u.alt == k.alt && u.abi == k.abi && u.regs.sp == k.regs.sp
  {
    RaisePlain(k, sig, onStack);
    EnteredFacts(k, sig, onStack);
    ReturnPlain(k, sig, onStack);
    Layout.EntrySpAligned(k.abi, FrameTop(k.abi, k.alt, k.regs.sp, onStack));
  }

  /** `sigaltstack-errors` with any sizes and flags of its kind: what its four settings return, what
      its two queries return, and the setting that survives. */
  method SigaltstackErrors(abi: Abi, regs: Regs, alt: int, size: nat, small: nat, badSize: nat, badFlags: nat)
    returns (results: seq<int>, queries: seq<StackT>, end: Alt)
    requires MINSIGSTKSZ <= size && small < MINSIGSTKSZ && !Within(regs.sp, alt, size)
    requires badFlags % SS_AUTODISARM !in {0, SS_ONSTACK, SS_DISABLE}
    ensures results == [-ENOMEM, -EINVAL, 0, -ENOMEM]
    ensures queries == [StackT(0, 0, SS_DISABLE), StackT(alt, size, 0)]
    ensures end == On(alt, size, false)
  {
    var k := ArmAlt(Fresh(abi, regs), StackT(alt, small, 0));
    results := [k.regs.rax];
    k := ArmAlt(k, StackT(alt, badSize, badFlags));
    results := results + [k.regs.rax];
    queries := [QueryAlt(k.alt, k.regs.sp)];
    k := ArmAlt(k, StackT(alt, size, 0));
    results := results + [k.regs.rax];
    k := ArmAlt(k, StackT(alt, small, 0));
    results := results + [k.regs.rax];
    queries := queries + [QueryAlt(k.alt, k.regs.sp)];
    end := k.alt;
  }

  lemma EntryInUse(abi: Abi, alt: Alt, sp: int)
    requires alt.On? && !alt.autodisarm && abi.frame + 24 <= alt.size && !Within(sp, alt.sp, alt.size)
    ensures QueryAlt(alt, EntrySp(abi, FrameTop(abi, alt, sp, true))) == StackT(alt.sp, alt.size, SS_ONSTACK)
  {
    Layout.EntrySpAligned(abi, alt.sp + alt.size);
  }

  /** A handler on an alternate stack with room for its frame finds that stack in use. */
  lemma RaisedInUse(k: State, sig: Sig)
    requires Calm(k)
    requires sig !in UNBLOCKABLE && k.alt.On? && !k.alt.autodisarm && k.abi.frame + 24 <= k.alt.size
    requires !Within(k.regs.sp, k.alt.sp, k.alt.size)
    ensures var t := Settle(SendTo(InstallAction(k, sig, Plain(true)), Instance(sig, 0)));
            && t.frames != [] && QueryAlt(t.alt, t.regs.sp) == StackT(k.alt.sp, k.alt.size, SS_ONSTACK)
            && var u := Settle(ReturnFrom(t));
               u.frames == [] && u.alt == k.alt && u.regs.sp == k.regs.sp
  {
    EntryInUse(k.abi, k.alt, k.regs.sp);
    RaiseAndReturn(k, sig, true);
    assert k.regs.sp == InstallAction(k, sig, Plain(true)).regs.sp;
  }

  class SigaltstackQuery {
    const alt: int
    const size: nat
    var handlerRan: bool
    var failed: bool

    constructor (alt: int, size: nat)
      ensures this.alt == alt && this.size == size && !handlerRan && !failed
    {
      this.alt, this.size, handlerRan, failed := alt, size, false, false;
    }

    /** Asserts what `sigaltstack(nullptr, &q)` reports. */
    method Check(k: State, expected: StackT)
      modifies this`failed
      ensures failed == (old(failed) || QueryAlt(k.alt, k.regs.sp) != expected)
    {
      if QueryAlt(k.alt, k.regs.sp) != expected { failed := true; }
    }

    method SignalHandler(k: State)
      modifies this
      ensures handlerRan
      ensures failed == (old(failed) || QueryAlt(k.alt, k.regs.sp) != StackT(alt, size, SS_ONSTACK))
    {
      handlerRan := true;
      Check(k, StackT(alt, size, SS_ONSTACK));
    }

    /** Installs the SA_ONSTACK handler, raises its signal and returns from it. */
    method RaiseOnStack(k: State) returns (t: State)
      requires InUserMode(k) && k.pending == [] && k.mask == {} && k.frames == []
      requires k.alt == On(alt, size, false) && MINSIGSTKSZ <= size && k.abi.frame + 24 <= size
      requires !Within(k.regs.sp, alt, size)
      modifies this
      ensures handlerRan && failed == old(failed)
      ensures t.frames == [] && t.alt == k.alt && t.regs.sp == k.regs.sp
    {
      RaisedInUse(k, SIGUSR1);
      t := Settle(SendTo(InstallAction(k, SIGUSR1, Plain(true)), Instance(SIGUSR1, 0)));
      SignalHandler(t);
      t := Settle(ReturnFrom(t));
    }

    /** Off, on, in use inside the handler, on again, and disabled: every query reads as asserted, on
        any stack with room for one frame. */
    method Drive(abi: Abi, regs: Regs) returns (k: State)
      requires MINSIGSTKSZ <= size && abi.frame + 24 <= size && !Within(regs.sp, alt, size)
      requires !handlerRan && !failed
      modifies this
      ensures handlerRan && !failed && k.frames == [] && k.alt == Off
    {
      k := Fresh(abi, regs);
      Check(k, StackT(0, 0, SS_DISABLE));
      k := ArmAlt(k, StackT(alt, size, 0));
      Check(k, StackT(alt, size, 0));
      k := RaiseOnStack(k);
      Check(k, StackT(alt, size, 0));
      k := ArmAlt(k, StackT(alt, size, SS_DISABLE));
      Check(k, StackT(0, 0, SS_DISABLE));
    }
  }

  class UcStackAlways {
    const alt: int
    const size: nat
    var count: nat
    var failed: bool

    constructor (alt: int, size: nat)
      ensures this.alt == alt && this.size == size && count == 0 && !failed
    {
      this.alt, this.size, count, failed := alt, size, 0, false;
    }

    /** Asserts that the frame saved the setting. */
    method SignalHandler(uc: Frame)
      modifies this
      ensures count == old(count) + 1 && failed == (old(failed) || uc.alt != StackT(alt, size, 0))
    {
      count := count + 1;
      failed := failed || uc.alt.sp != alt || uc.alt.size != size || uc.alt.flags != 0;
    }

    method RaiseOnce(k: State, onStack: bool) returns (t: State)
      requires InUserMode(k) && k.pending == [] && k.mask == {} && k.frames == []
      requires k.alt == On(alt, size, false) && MINSIGSTKSZ <= size
      modifies this
      ensures count == old(count) + 1 && failed == old(failed)
      ensures InUserMode(t) && t.pending == [] && t.mask == {} && t.frames == [] && t.alt == k.alt
    {
      RaiseAndReturn(k, SIGUSR1, onStack);
      t := Settle(SendTo(InstallAction(k, SIGUSR1, Plain(onStack)), Instance(SIGUSR1, 0)));
      SignalHandler(TopFrame(t));
      t := Settle(ReturnFrom(t));
    }

    /** However often the handler is installed, with SA_ONSTACK or without, its frame has the setting,
        and the setting is the same afterwards. */
    method Drive(abi: Abi, regs: Regs, kinds: seq<bool>) returns (k: State)
      requires count == 0 && !failed && MINSIGSTKSZ <= size && !Within(regs.sp, alt, size)
      modifies this
      ensures !failed && count == |kinds| && k.frames == [] && k.alt == On(alt, size, false)
    {
      k := ArmAlt(Fresh(abi, regs), StackT(alt, size, 0));
      for i := 0 to |kinds|
        invariant !failed && count == i
        invariant InUserMode(k) && k.pending == [] && k.mask == {} && k.frames == [] && k.alt == On(alt, size, false)
      {
        k := RaiseOnce(k, kinds[i]);
      }
    }
  }

  class FrameAlignment {
    var entrySp: int
    var count: nat

    constructor ()
      ensures entrySp == 0 && count == 0
    {
      entrySp, count := 0, 0;
    }

    method Record(sp: int)
      modifies this
      ensures entrySp == sp && count == old(count) + 1
    {
      entrySp, count := sp, count + 1;
    }

    /** Raises `sig` for a handler that records its entry stack pointer, and returns from it. */
    method RaiseAndRecord(k: State, sig: Sig, onStack: bool) returns (t: State)
      requires sig !in UNBLOCKABLE
      requires Calm(k)
      modifies this
      ensures count == old(count) + 1 && entrySp % 16 == 16 - WordSize(k.abi)
      ensures entrySp == EntrySp(k.abi, FrameTop(k.abi, k.alt, k.regs.sp, onStack))
      ensures InUserMode(t) && t.pending == [] && t.mask == {} && t.frames == [] && t.alt == k.alt
      ensures t.abi == k.abi && t.regs.sp == k.regs.sp
    {
      var s := InstallAction(k, sig, Plain(onStack));
      RaiseAndReturn(k, sig, onStack);
      t := Settle(SendTo(s, Instance(sig, 0)));
      Record(t.regs.sp);
      t := Settle(ReturnFrom(t));
    }

    /** For every stack pointer, frame size and alternate stack, however misaligned: the first and
        third handler start below the interrupted stack pointer and its red zone, the second below
        the top of the alternate stack, all of them one word short of a 16-byte boundary. */
    method Drive(abi: Abi, regs: Regs, alt: int, size: nat, other: Sig) returns (sps: seq<int>)
      requires count == 0 && MINSIGSTKSZ <= size && !Within(regs.sp, alt, size) && other !in UNBLOCKABLE
      modifies this
      ensures count == 3 == |sps| && sps[0] == sps[2]
      ensures forall i :: 0 <= i < 3 ==> sps[i] % 16 == 16 - WordSize(abi)
      ensures sps[0] + abi.frame <= regs.sp - (if abi.Abi64? then 128 else 0) < sps[0] + abi.frame + 24
      ensures sps[1] + abi.frame <= alt + size < sps[1] + abi.frame + 24
    {
      var k := RaiseAndRecord(Fresh(abi, regs), SIGUSR1, false);
      sps := [entrySp];
      k := ArmAlt(k, StackT(alt, size, 0));
      k := RaiseAndRecord(k, SIGUSR1, true);
      sps := sps + [entrySp];
      k := RaiseAndRecord(k, other, false);
      sps := sps + [entrySp];
      Layout.EntrySpAligned(abi, regs.sp - RedZone(abi));
      Layout.EntrySpAligned(abi, alt + size);
    }
  }
}
