/** What handlers give back: after any well-nested excursion into handlers the thread is as
    it was, and `sigsuspend` returns with the caller's own mask after a handler has run. */
module Nesting {
  import opened Signals
  import opened Queue
  import opened Machine
  import opened UserCalls
  import opened Accounting

  // ---------------------------------------------------------------- the alternate stack

  /** A setting the kernel can hold. */
  predicate AltOk(alt: Alt) {
    alt.On? ==> MINSIGSTKSZ <= alt.size
  }

  lemma StackTRoundTrip(alt: Alt)
    ensures AltOf(ToStackT(alt)) == alt
  {
  }

  /** Restoring a saved setting at `sigreturn` succeeds, or changes nothing, exactly when the
      live setting does not claim the stack being returned to. */
  lemma RestoreAltExact(live: Alt, saved: Alt, sp: int)
    requires AltOk(saved)
    ensures ChangeAlt(live, sp, ToStackT(saved)) == saved <==> !OnAlt(live, sp) || live == saved
  {
    StackTRoundTrip(saved);
  }

  // ---------------------------------------------------------------- excursions

  /** The step `e` of `t` belongs to an excursion that left `s0` for its handlers: at `s0`'s own
      level only signals arrive, deeper down handlers do as they like, except that none edits the
      context `s0` was saved in, jumps past it, or claims its stack as an alternate stack. */
  predicate InExcursion(s0: State, t: State, e: Event) {
    var d := |s0.frames|;
    if |t.frames| <= d then e.Send? || e.Deliver?
    else
      && (|t.frames| == d + 1 ==> !e.EditMask? && !e.EditAlt? && !e.EditRegs?)
      && (e.Longjmp? ==> d < e.depth)
      && (e.SetAlt? || e.EditAlt? ==> !OnAlt(AltOf(e.req), s0.regs.sp))
  }

  /** `r` is what the excursion hands back to the context it interrupted. */
  predicate BackHome(s0: State, r: Regs) {
    match s0.sleep
    case Awake => r == s0.regs
    case InSuspend(_) => r == s0.regs.(rax := -EINTR)
    case InCall(nr) =>
      || r == s0.regs.(rax := -EINTR)
      || r == s0.regs.(pc := s0.regs.pc - SYSCALL_LENGTH, rax := nr)
  }

  /** Some handler was entered since `s0`. */
  ghost predicate HandlerRan(s0: State, t: State) {
    && |s0.log| <= |t.log|
    && exists k :: |s0.log| <= k < |t.log| && t.log[k].fate == Handled
  }

  /** Nested frames must not restore a setting that claims `s0`'s stack either. */
  ghost predicate SafeSettings(s0: State, t: State) {
    && (t.alt == s0.alt || !OnAlt(t.alt, s0.regs.sp))
    && forall k :: |s0.frames| < k < |t.frames| ==>
         AltOf(t.frames[k].alt) == s0.alt || !OnAlt(AltOf(t.frames[k].alt), s0.regs.sp)
  }

  ghost predicate Away(s0: State, t: State)
    requires |s0.frames| < |t.frames|
  {
    var d := |s0.frames|;
    && t.frames[d].mask == Home(s0)
    && t.frames[d].alt == ToStackT(s0.alt)
    && BackHome(s0, t.frames[d].regs)
    && HandlerRan(s0, t)
  }

  ghost predicate AtHome(s0: State, t: State) {
    && t.alt == s0.alt
    && (|| (t.sleep == s0.sleep && t.mask == s0.mask && t.regs == s0.regs)
        || (t.sleep.Awake? && t.mask == Home(s0) && BackHome(s0, t.regs) && HandlerRan(s0, t)))
  }

  ghost predicate ExcursionInv(s0: State, t: State) {
    var d := |s0.frames|;
    && d <= |t.frames| && t.frames[..d] == s0.frames
    && |s0.log| <= |t.log|
    && SafeSettings(s0, t)
    && (if |t.frames| == d then AtHome(s0, t) else Away(s0, t))
  }

  /** What the context of an excursion must satisfy. */
  predicate Resumable(s0: State) {
    Home(s0) !! UNBLOCKABLE && AltOk(s0.alt)
  }

  /** Some run from a fresh thread leads to `s`. */
  ghost predicate Reachable(s: State) {
    exists abi: Abi, regs: Regs, es: seq<Event> :: Feasible(Fresh(abi, regs), es) && Exec(Fresh(abi, regs), es) == s
  }

  lemma StepKeepsAltOk(s: State, e: Event)
    requires Enabled(s, e) && AltOk(s.alt)
    ensures AltOk(Next(s, e).alt)
  {
  }

  /** In every reachable state KILL and STOP are open and the alternate stack has the minimum size. */
  lemma ReachableIsResumable(s: State)
    requires Reachable(s)
    ensures Resumable(s)
  {
    var abi: Abi, regs: Regs, es: seq<Event> :|
      Feasible(Fresh(abi, regs), es) && Exec(Fresh(abi, regs), es) == s;
    KillAndStopCannotBeHeldOff(abi, regs, es, 0);
    var inv := (t: State) => AltOk(t.alt);
    forall t, e | inv(t) && Enabled(t, e) ensures inv(Next(t, e)) {
      StepKeepsAltOk(t, e);
    }
    RunInduction(Fresh(abi, regs), es, (_, _) => true, inv);
  }

  lemma ExcursionDeliver(s0: State, t: State)
    requires Resumable(s0) && CanDeliver(t) && ExcursionInv(s0, t)
    ensures ExcursionInv(s0, DeliverNext(t))
  {
    var x, f := DeliverShape(t);
    var u := DeliverNext(t);
    StackTRoundTrip(t.alt);
    assert u.log[..|t.log|] == t.log;
    if f == Handled {
      assert u.log[|t.log|].fate == Handled;
      assert u.frames == t.frames + [u.frames[|t.frames|]];
      assert u.frames[..|s0.frames|] == s0.frames;
    } else {
      assert HandlerRan(s0, t) ==> HandlerRan(s0, u);
    }
  }

  lemma ExcursionReturn(s0: State, t: State)
    requires Resumable(s0) && InUserMode(t) && |s0.frames| < |t.frames| && ExcursionInv(s0, t)
    ensures ExcursionInv(s0, ReturnFrom(t))
  {
    var u := ReturnFrom(t);
    var f := TopFrame(t);
    assert u.frames[..|s0.frames|] == s0.frames;
    if |u.frames| == |s0.frames| {
      RestoreAltExact(t.alt, s0.alt, s0.regs.sp);
      assert Filter(Home(s0)) == Home(s0);
    }
  }

  lemma LogGrows(t: State, e: Event)
    requires Enabled(t, e)
    ensures |t.log| <= |Next(t, e).log| && Next(t, e).log[..|t.log|] == t.log
  {
    match e
    case Send(_) =>
    case Deliver => var _, _ := DeliverShape(t);
    case WaitInfo(_) =>
    case Install(_, _) =>
    case _ => LocalStepShape(t, e);
  }

  lemma ExcursionInside(s0: State, t: State, e: Event)
    requires Resumable(s0) && Enabled(t, e) && InExcursion(s0, t, e) && ExcursionInv(s0, t)
    requires !e.Deliver? && !e.Return?
    ensures ExcursionInv(s0, Next(t, e))
  {
    var u := Next(t, e);
    LogGrows(t, e);
    if HandlerRan(s0, t) {
      var k :| |s0.log| <= k < |t.log| && t.log[k].fate == Handled;
      assert u.log[k] == t.log[k];
    }
    assert u.frames[..|s0.frames|] == s0.frames;
  }

  lemma ExcursionStep(s0: State, t: State, e: Event)
    requires Resumable(s0) && Enabled(t, e) && InExcursion(s0, t, e) && ExcursionInv(s0, t)
    ensures ExcursionInv(s0, Next(t, e))
  {
    match e
    case Deliver => ExcursionDeliver(s0, t);
    case Return => ExcursionReturn(s0, t);
    case _ => ExcursionInside(s0, t, e);
  }

  lemma {:induction false} ExcursionRun(s0: State, es: seq<Event>)
    requires Resumable(s0)
    requires Throughout(s0, es, (t, e) => InExcursion(s0, t, e))
    ensures Feasible(s0, es) && ExcursionInv(s0, Exec(s0, es))
  {
    var ok := (t: State, e: Event) => InExcursion(s0, t, e);
    var inv := (t: State) => ExcursionInv(s0, t);
    forall t, e | inv(t) && Enabled(t, e) && ok(t, e) ensures inv(Next(t, e)) {
      ExcursionStep(s0, t, e);
    }
    assert Throughout(s0, es, ok);
    assert ExcursionInv(s0, s0);
    RunInduction(s0, es, ok, inv);
  }

  // ---------------------------------------------------------------- main results

  /** When every frame pushed since `s0` has returned, however they nested and whatever masks and
      alternate stacks the handlers set meanwhile, `s0`'s context is back. */
  lemma {:induction false} WellNestedHandlersRestore(s0: State, es: seq<Event>)
    requires Reachable(s0) && s0.sleep.Awake?
    requires Throughout(s0, es, (t, e) => InExcursion(s0, t, e))
    ensures Feasible(s0, es)
    ensures var t := Exec(s0, es);
            |t.frames| <= |s0.frames| ==>
              t.frames == s0.frames && t.mask == s0.mask && t.alt == s0.alt && t.regs == s0.regs
  {
    ReachableIsResumable(s0);
    ExcursionRun(s0, es);
  }

  /** `sigsuspend` comes back only after a handler was entered, with -EINTR just past the call and
      with the mask the caller had; the bottom frame pushed during it has saved that mask, not the
      temporary one. Until then exactly the signals of `m`, less KILL and STOP, are blocked. Handlers may
      nest, block and suspend again meanwhile. */
  lemma {:induction false} SigsuspendReturns(s0: State, m: set<Sig>, es: seq<Event>)
    requires Reachable(s0) && InUserMode(s0)
    requires var s1 := Next(s0, Suspend(m)); Throughout(s1, es, (t, e) => InExcursion(s1, t, e))
    ensures var s1 := Next(s0, Suspend(m));
            && Feasible(s1, es)
            && var t := Exec(s1, es);
               && |s0.frames| <= |t.frames|
               && (|s0.frames| < |t.frames| ==> t.frames[|s0.frames|].mask == s0.mask)
               && (|t.frames| == |s0.frames| && !t.sleep.Awake? ==>
                     forall k: Sig :: k in t.mask <==> k in m && k != SIGKILL && k != SIGSTOP)
               && (|t.frames| == |s0.frames| && t.sleep.Awake? ==>
                     && HandlerRan(s1, t)
                     && t.frames == s0.frames && t.mask == s0.mask && t.alt == s0.alt
                     && t.regs == s0.regs.(pc := s0.regs.pc + SYSCALL_LENGTH, rax := -EINTR))
  {
    ReachableIsResumable(s0);
    ExcursionRun(Next(s0, Suspend(m)), es);
  }

  // ---------------------------------------------------------------- one handler and its setting

  /** The step `e` of `t` is taken inside the handler entered from `s0`, or in handlers above it, and
      is not its return. */
  predicate StaysInside(s0: State, t: State, e: Event) {
    var d := |s0.frames|;
    d < |t.frames| && (|t.frames| == d + 1 ==> !e.Return?) && (e.Longjmp? ==> d < e.depth)
  }

  /** And of the context it will return to, only `uc_stack` may be edited; settings are not restricted. */
  predicate InsideHandler(s0: State, t: State, e: Event) {
    StaysInside(s0, t, e) && (|t.frames| == |s0.frames| + 1 ==> !e.EditMask? && !e.EditRegs?)
  }

  /** The saved context `f` after step `e`, if that edits it: frame number `d` is edited by its own
      handler, while no other is above it. */
  function EditedBy(d: nat, t: State, e: Event, f: Frame): Frame {
    if |t.frames| != d + 1 then f
    else if e.EditMask? then f.(mask := e.sigs)
    else if e.EditAlt? then f.(alt := e.req)
    else if e.EditRegs? then f.(regs := e.regs)
    else f
  }

  /** What the edits along a run make of the saved context `f`. */
  ghost function LastContext(d: nat, t: State, es: seq<Event>, f: Frame): Frame
    requires Feasible(t, es)
    decreases |es|
  {
    if es == [] then f else LastContext(d, Next(t, es[0]), es[1..], EditedBy(d, t, es[0], f))
  }

  /** What frame number `d` asks for at the end of a run: the last request written to its `uc_stack`,
      or `req`, the one it had. */
  ghost function LastEdit(d: nat, t: State, es: seq<Event>, req: StackT): StackT
    requires Feasible(t, es)
    decreases |es|
  {
    if es == [] then req
    else LastEdit(d, Next(t, es[0]), es[1..], if |t.frames| == d + 1 && es[0].EditAlt? then es[0].req else req)
  }

  predicate KeepsContext(s0: State, f: Frame, t: State) {
    |s0.frames| < |t.frames| && t.frames[..|s0.frames|] == s0.frames && t.frames[|s0.frames|] == f
  }

  lemma InsideStep(s0: State, f: Frame, t: State, e: Event)
    requires KeepsContext(s0, f, t) && Enabled(t, e) && StaysInside(s0, t, e)
    ensures KeepsContext(s0, EditedBy(|s0.frames|, t, e, f), Next(t, e))
  {
    if e.Deliver? {
      var _, g := DeliverShape(t);
      if g == Handled { DeliverHandler(t); }
    } else if e.Return? {
      assert ReturnFrom(t).frames == t.frames[..|t.frames| - 1];
    }
  }

  lemma {:induction false} InsideRun(s0: State, f: Frame, t: State, es: seq<Event>)
    requires KeepsContext(s0, f, t) && Throughout(t, es, (u, e) => StaysInside(s0, u, e))
    ensures Feasible(t, es) && KeepsContext(s0, LastContext(|s0.frames|, t, es, f), Exec(t, es))
    decreases |es|
  {
    ThroughoutIsFeasible(t, es, (u, e) => StaysInside(s0, u, e));
    if es != [] {
      InsideStep(s0, f, t, es[0]);
      InsideRun(s0, EditedBy(|s0.frames|, t, es[0], f), Next(t, es[0]), es[1..]);
    }
  }

  lemma {:induction false} OnlyStackEdited(s0: State, f: Frame, t: State, es: seq<Event>)
    requires Throughout(t, es, (u, e) => InsideHandler(s0, u, e))
    ensures Feasible(t, es) && Throughout(t, es, (u, e) => StaysInside(s0, u, e))
    ensures LastContext(|s0.frames|, t, es, f) == f.(alt := LastEdit(|s0.frames|, t, es, f.alt))
    decreases |es|
  {
    ThroughoutIsFeasible(t, es, (u, e) => InsideHandler(s0, u, e));
    if es == [] {
      assert f.(alt := f.alt) == f;
    } else {
      OnlyStackEdited(s0, EditedBy(|s0.frames|, t, es[0], f), Next(t, es[0]), es[1..]);
    }
  }

  /** What a handler makes of its saved context is what its return installs: wherever and however often
      it edits mask, registers and `uc_stack`, whatever nested handlers do, and whatever masks and
      settings are live, the last value of each counts; the mask less KILL and STOP, the setting as
      `sigaltstack` would treat it on the stack returned to. Unedited, they are those interrupted. */
  lemma {:induction false} EditedContextInstalled(s0: State, es: seq<Event>) returns (f0: Frame)
    requires CanDeliver(s0) && |DeliverNext(s0).frames| == |s0.frames| + 1
    requires Throughout(DeliverNext(s0), es, (t, e) => StaysInside(s0, t, e))
    ensures f0.mask == Home(s0) && f0.alt == ToStackT(s0.alt) && BackHome(s0, f0.regs)
    ensures var s1, d := DeliverNext(s0), |s0.frames|;
            && Feasible(s1, es)
            && var t, f := Exec(s1, es), LastContext(d, s1, es, f0);
               && d < |t.frames| && t.frames[d] == f
               && (|t.frames| == d + 1 ==>
                     var u := ReturnFrom(t);
                     && u.frames == s0.frames && u.regs == f.regs
                     && (forall k: Sig :: k in u.mask <==> k in f.mask && k != SIGKILL && k != SIGSTOP)
                     && u.alt == ChangeAlt(t.alt, f.regs.sp, f.alt))
  {
    f0 := EntryFrame(s0);
    InsideRun(s0, f0, DeliverNext(s0), es);
  }

  /** Whatever a handler does, nested handlers and their settings included, and wherever it edits its
      `uc_stack`: its frame holds the last request written there, or the setting it was entered with.
      Its return restores mask, registers and frames, and treats that request as `sigaltstack` would on
      the stack returned to: it is installed if and only if it is in order and the live setting does not
      claim that stack, or it is live already. */
  lemma {:induction false} EditedStackInstalled(s0: State, es: seq<Event>)
    requires Reachable(s0) && CanDeliver(s0) && |DeliverNext(s0).frames| == |s0.frames| + 1
    requires Throughout(DeliverNext(s0), es, (t, e) => InsideHandler(s0, t, e))
    ensures var s1, d := DeliverNext(s0), |s0.frames|;
            && Feasible(s1, es)
            && var t, edit := Exec(s1, es), LastEdit(d, s1, es, ToStackT(s0.alt));
               && d < |t.frames| && t.frames[d].alt == edit
               && (|t.frames| == d + 1 ==>
                     var u := ReturnFrom(t);
                     && u.frames == s0.frames && u.mask == Home(s0) && BackHome(s0, u.regs)
                     && u.alt == ChangeAlt(t.alt, s0.regs.sp, edit)
                     && (u.alt == AltOf(edit) <==> AltError(t.alt, s0.regs.sp, edit) == 0 || t.alt == AltOf(edit)))
  {
    ReachableIsResumable(s0);
    var f := EntryFrame(s0);
    OnlyStackEdited(s0, f, DeliverNext(s0), es);
    InsideRun(s0, f, DeliverNext(s0), es);
    var t := Exec(DeliverNext(s0), es);
    if |t.frames| == |s0.frames| + 1 {
      KeptReturn(s0, f, t);
    }
  }

  /** The frame that the delivery from `s0` pushes. */
  lemma EntryFrame(s0: State) returns (f: Frame)
    requires CanDeliver(s0) && |DeliverNext(s0).frames| == |s0.frames| + 1
    ensures KeepsContext(s0, f, DeliverNext(s0))
    ensures f.mask == Home(s0) && f.alt == ToStackT(s0.alt) && BackHome(s0, f.regs)
  {
    var _, g := DeliverShape(s0);
    DeliverHandler(s0);
    f := DeliverNext(s0).frames[|s0.frames|];
  }

  lemma KeptReturn(s0: State, f: Frame, t: State)
    requires |t.frames| == |s0.frames| + 1 && KeepsContext(s0, f.(alt := TopFrame(t).alt), t)
    requires f.mask == Home(s0) && BackHome(s0, f.regs) && Home(s0) !! UNBLOCKABLE
    ensures var u, edit := ReturnFrom(t), TopFrame(t).alt;
            && u.frames == s0.frames && u.mask == Home(s0) && BackHome(s0, u.regs)
            && u.alt == ChangeAlt(t.alt, s0.regs.sp, edit)
            && (u.alt == AltOf(edit) <==> AltError(t.alt, s0.regs.sp, edit) == 0 || t.alt == AltOf(edit))
  {
    assert Filter(Home(s0)) == Home(s0);
  }

  /** So a handler that leaves its `uc_stack` as it was gives the setting back if and only if the one
      that is live at its return does not claim the stack returned to, or is the same anyway. */
  lemma {:induction false} HandlerRestoresSettingExactly(s0: State, es: seq<Event>)
    requires Reachable(s0) && CanDeliver(s0) && |DeliverNext(s0).frames| == |s0.frames| + 1
    requires Throughout(DeliverNext(s0), es, (t, e) => InsideHandler(s0, t, e))
    ensures var s1, d := DeliverNext(s0), |s0.frames|;
            && Feasible(s1, es)
            && var t := Exec(s1, es);
               |t.frames| == d + 1 && LastEdit(d, s1, es, ToStackT(s0.alt)) == ToStackT(s0.alt) ==>
                 (ReturnFrom(t).alt == s0.alt <==> !OnAlt(t.alt, s0.regs.sp) || t.alt == s0.alt)
  {
    ReachableIsResumable(s0);
    EditedStackInstalled(s0, es);
    RestoreAltExact(Exec(DeliverNext(s0), es).alt, s0.alt, s0.regs.sp);
  }

  const PLAIN: Action := Handler(0x1000, {}, false, false, false, false)

  /** Up to the entry of the handler. */
  lemma Entering(abi: Abi, regs: Regs) returns (s1: State, s2: State, s3: State)
    ensures Enabled(Fresh(abi, regs), Install(SIGUSR1, PLAIN)) && Next(Fresh(abi, regs), Install(SIGUSR1, PLAIN)) == s1
    ensures Enabled(s1, Send(USR1)) && Next(s1, Send(USR1)) == s2
    ensures Enabled(s2, Deliver) && Next(s2, Deliver) == s3
    ensures InUserMode(s3) && s3.alt == Off && |s3.frames| == 1 && s3.pending == []
    ensures s3.frames[0].mask == {} && s3.frames[0].alt == ToStackT(Off) && s3.frames[0].regs.sp == regs.sp
  {
    s1 := InstallAction(Fresh(abi, regs), SIGUSR1, PLAIN);
    assert Filter({}) == {} && !Eligible(s1.pending, s1.mask);
    s2 := SendTo(s1, USR1);
    SendOnly(s1, USR1);
    DeliverOnly(s2, USR1);
    s3 := DeliverNext(s2);
  }

  lemma Leaving(s3: State, sp: int, base: int, size: nat) returns (s4: State, s5: State)
    requires InUserMode(s3) && s3.alt == Off && |s3.frames| == 1 && s3.pending == []
    requires s3.frames[0].mask == {} && s3.frames[0].alt == ToStackT(Off) && s3.frames[0].regs.sp == sp
    requires Within(sp, base, size) && MINSIGSTKSZ <= size
    ensures Enabled(s3, SetAlt(StackT(base, size, 0))) && Next(s3, SetAlt(StackT(base, size, 0))) == s4
    ensures Enabled(s4, Return) && Next(s4, Return) == s5
    ensures InUserMode(s5) && s5.frames == [] && s5.mask == {} && s5.pending == []
    ensures s5.regs.sp == sp && s5.alt == On(base, size, false)
  {
    s4 := ArmAlt(s3, StackT(base, size, 0));
    assert !Eligible(s4.pending, s4.mask);
    s5 := ReturnFrom(s4);
    assert Filter({}) == {} && !Eligible(s5.pending, s5.mask);
  }

  /** Such a run, for every region around the program's stack pointer: with no alternate stack set,
      the handler of a raised signal sets that region and returns; the setting stays. */
  lemma SettingCanOutliveHandler(abi: Abi, regs: Regs, base: int, size: nat) returns (es: seq<Event>)
    requires Within(regs.sp, base, size) && MINSIGSTKSZ <= size
    ensures Feasible(Fresh(abi, regs), es)
    ensures var t := Exec(Fresh(abi, regs), es);
            && t.frames == [] && t.mask == {} && t.pending == [] && t.regs.sp == regs.sp && InUserMode(t)
            && Fresh(abi, regs).alt == Off && t.alt == On(base, size, false)
  {
    var s1, s2, s3 := Entering(abi, regs);
    var s4, s5 := Leaving(s3, regs.sp, base, size);
    var sets := SetAlt(StackT(base, size, 0));
    assert Feasible(s5, []) && Exec(s5, []) == s5;
    RunCons(s4, Return, [], s5);
    RunCons(s3, sets, [Return] + [], s5);
    RunCons(s2, Deliver, [sets] + ([Return] + []), s5);
    RunCons(s1, Send(USR1), [Deliver] + ([sets] + ([Return] + [])), s5);
    es := [Send(USR1)] + ([Deliver] + ([sets] + ([Return] + [])));
    RunCons(Fresh(abi, regs), Install(SIGUSR1, PLAIN), es, s5);
    es := [Install(SIGUSR1, PLAIN)] + es;
  }

  lemma RunCons(s: State, e: Event, es: seq<Event>, end: State)
    requires Enabled(s, e) && Feasible(Next(s, e), es) && Exec(Next(s, e), es) == end
    ensures Feasible(s, [e] + es) && Exec(s, [e] + es) == end
  {
    assert ([e] + es)[1..] == es;
  }

  // ---------------------------------------------------------------- one handler

  /** Entering a handler and returning from it undoes everything but the log. */
  lemma PushThenReturn(s: State, x: Instance, a: Action)
    requires a.Handler? && !a.resetHand && s.sleep.Awake? && s.mask !! UNBLOCKABLE && AltOk(s.alt)
    ensures ReturnFrom(Push(s, x, a)) == s.(log := s.log + [Entry(Handled, x)])
  {
    var t := Push(s, x, a);
    assert t.frames[..|s.frames|] == s.frames;
    RestoreAltExact(t.alt, s.alt, s.regs.sp);
    assert Filter(s.mask) == s.mask;
  }

  // ---------------------------------------------------------------- one signal per sigsuspend

  /** The handler about to run keeps every signal now pending out. */
  predicate Covers(s: State, m: set<Sig>, a: Action) {
    && a.Handler?
    && forall k :: 0 <= k < |s.pending| ==> s.pending[k].sig in Filter(Filter(m) + a.saMask)
  }

  /** The whole life of a `sigsuspend` whose handler makes no system calls. */
  function SuspendOnce(s: State, m: set<Sig>): State
    requires InUserMode(s)
    requires Eligible(s.pending, Filter(m))
    requires Covers(s, m, ActionOf(s.actions, s.pending[Pick(s.pending, Filter(m))].sig))
    requires !IsIgnored(s.actions, s.pending[Pick(s.pending, Filter(m))].sig)
  {
    var t := Settle(EnterSuspend(s, m));
    CoveredSettle(s, m);
    Settle(ReturnFrom(t))
  }

  lemma CoveredSettle(s: State, m: set<Sig>)
    requires InUserMode(s) && Eligible(s.pending, Filter(m))
    requires Covers(s, m, ActionOf(s.actions, s.pending[Pick(s.pending, Filter(m))].sig))
    ensures var s1 := EnterSuspend(s, m);
            CanDeliver(s1) && Settle(s1) == DeliverNext(s1) && InUserMode(DeliverNext(s1))
            && DeliverNext(s1).frames != []
  {
    var s1 := EnterSuspend(s, m);
    var t := DeliverNext(s1);
    var i := Pick(s1.pending, s1.mask);
    DeliverHandler(s1);
    assert t.pending == Remove(s.pending, i);
    forall k | 0 <= k < |t.pending| ensures t.pending[k].sig in t.mask {
      assert t.pending[k] == s1.pending[if k < i then k else k + 1];
    }
    assert !CanDeliver(t);
    SettleQuiet(t);
    SettleStep(s1);
  }

  /** With a covering handler mask, one `sigsuspend` consumes one instance: the oldest of the
      lowest-numbered signal its temporary mask lets through. All else that was pending still is,
      in order, and the mask is the caller's again. */
  lemma SuspendConsumesExactlyOne(s: State, m: set<Sig>)
    requires Resumable(s) && InUserMode(s) && Eligible(s.pending, Filter(m))
    requires Covers(s, m, ActionOf(s.actions, s.pending[Pick(s.pending, Filter(m))].sig))
    requires !IsIgnored(s.actions, s.pending[Pick(s.pending, Filter(m))].sig)
    ensures var i := Pick(s.pending, Filter(m));
            var x := s.pending[i];
            var t := SuspendOnce(s, m);
            && IsNext(s.pending, Filter(m), i)
            && t.pending == Remove(s.pending, i)
            && t.log == s.log + [Entry(Handled, x)]
            && t.mask == s.mask && t.frames == s.frames && t.alt == s.alt && InUserMode(t)
            && t.regs == s.regs.(pc := s.regs.pc + SYSCALL_LENGTH, rax := -EINTR)
            && (!ActionOf(s.actions, x.sig).resetHand ==> t.actions == s.actions)
  {
    CoveredSettle(s, m);
    var i := Pick(s.pending, Filter(m));
    var t := DeliverNext(EnterSuspend(s, m));
    CoveredFrame(s, m);
    var u := ReturnFrom(t);
    StackTRoundTrip(s.alt);
    assert Filter(s.mask) == s.mask;
    QuietAfterRemove(s.pending, s.mask, i);
    assert !CanDeliver(u);
  }

  /** The one frame of a covered `sigsuspend`. */
  lemma CoveredFrame(s: State, m: set<Sig>)
    requires InUserMode(s) && Eligible(s.pending, Filter(m))
    requires Covers(s, m, ActionOf(s.actions, s.pending[Pick(s.pending, Filter(m))].sig))
    requires !IsIgnored(s.actions, s.pending[Pick(s.pending, Filter(m))].sig)
    ensures var i := Pick(s.pending, Filter(m));
            var t := DeliverNext(EnterSuspend(s, m));
            && |t.frames| == |s.frames| + 1 && t.frames[..|s.frames|] == s.frames
            && TopFrame(t).mask == s.mask && TopFrame(t).alt == ToStackT(s.alt)
            && TopFrame(t).regs == s.regs.(pc := s.regs.pc + SYSCALL_LENGTH, rax := -EINTR)
            && (t.alt == s.alt || (t.alt == Off && s.alt.On? && s.alt.autodisarm))
            && t.pending == Remove(s.pending, i) && t.log == s.log + [Entry(Handled, s.pending[i])]
            && t.status.Alive?
            && (!ActionOf(s.actions, s.pending[i].sig).resetHand ==> t.actions == s.actions)
  {
    CoveredSettle(s, m);
    var x, f := DeliverShape(EnterSuspend(s, m));
  }
}
