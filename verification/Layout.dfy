/** Where signal frames are put: every handler starts with an aligned stack pointer, and the live
    frames of a run never overlap, on the ordinary stack and on the alternate one. */
module Layout {
  import opened Signals
  import opened Queue
  import opened Machine

  /** For every top of stack, odd ones included: the entry stack pointer is one word short of a
      16-byte boundary, and the frame fits below the top with less than 24 bytes of padding. */
  lemma EntrySpAligned(abi: Abi, top: int)
    ensures EntrySp(abi, top) % 16 == 16 - WordSize(abi)
    ensures top - abi.frame - 24 < EntrySp(abi, top) <= top - abi.frame
  {
    var x := if abi.Abi64? then top - abi.frame else top - abi.frame + 4;
    assert x == x / 16 * 16 + x % 16;
    var q := x / 16;
    assert EntrySp(abi, top) == q * 16 - WordSize(abi);
    assert (q * 16 - WordSize(abi)) % 16 == 16 - WordSize(abi);
  }

  /** Between deliveries and returns the stack pointer is the last one the thread set, by its own
      instructions or by a `longjmp`. */
  lemma {:induction false} StackPointerIsLastSet(s: State, es: seq<Event>)
    requires Throughout(s, es, (_, e) => NoHandlerStep(e))
    ensures Feasible(s, es) && Exec(s, es).regs.sp == LastSp(s.regs.sp, es)
    decreases |es|
  {
    ThroughoutIsFeasible(s, es, (_, e) => NoHandlerStep(e));
    if es != [] {
      StackPointerIsLastSet(Next(s, es[0]), es[1..]);
    }
  }

  predicate NoHandlerStep(e: Event) {
    !e.Deliver? && !e.Return?
  }

  function LastSp(sp: int, es: seq<Event>): int
    decreases |es|
  {
    if es == [] then sp
    else LastSp(if es[0].Work? || es[0].Longjmp? then es[0].regs.sp else sp, es[1..])
  }

  // ---------------------------------------------------------------- stack discipline

  predicate Inside(a: Alt, f: Frame)
    requires a.On?
  {
    a.sp < f.entry <= f.top <= a.sp + a.size
  }

  predicate Outside(a: Alt, f: Frame)
    requires a.On?
  {
    f.entry <= f.top && (f.top <= a.sp || a.sp + a.size < f.entry)
  }

  predicate OnRegion(a: Alt, sp: int)
    requires a.On?
  {
    Within(sp, a.sp, a.size)
  }

  /** A context running above the frames `fs` keeps its stack pointer on the stack the innermost
      frame was put on, and does not climb into that frame. */
  predicate SpOk(a: Alt, fs: seq<Frame>, sp: int)
    requires a.On?
  {
    if fs == [] then !OnRegion(a, sp)
    else
      var f := fs[|fs| - 1];
      sp <= f.entry && (OnRegion(a, sp) <==> Inside(a, f))
  }

  /** The next frame has room on the stack it goes to. */
  predicate Room(a: Alt, s: State)
    requires a.On? && CanDeliver(s)
  {
    var x := s.pending[Pick(s.pending, s.mask)];
    var act := ActionOf(s.actions, x.sig);
    act.Handler? ==>
      var f := MakeFrame(s, x, act);
      if OnRegion(a, s.regs.sp) || f.top == a.sp + a.size then a.sp < f.entry else Outside(a, f)
  }

  /** One alternate stack `a` is armed or disarmed only outside handlers, contexts keep to their
      stacks, and there is room for the frames. */
  predicate Disciplined(a: Alt, s: State, e: Event)
    requires a.On?
  {
    match e
    case Work(r) => SpOk(a, s.frames, r.sp)
    case Longjmp(d, r) => d <= |s.frames| && SpOk(a, s.frames[..d], r.sp)
    case SetAlt(req) => s.frames == [] && (AltOf(req) == Off || AltOf(req) == a)
    case EditAlt(_) => false
    case EditRegs(_) => false
    case Deliver => CanDeliver(s) && Room(a, s)
    case _ => true
  }

  /** What frame `f` owes the frames `fs` below it: the same stack or a switch to `a`, room above
      its top, and the setting it will restore. */
  predicate OnTop(a: Alt, abi: Abi, fs: seq<Frame>, f: Frame)
    requires a.On?
  {
    && (Inside(a, f) || Outside(a, f))
    && f.entry % 16 == 16 - WordSize(abi)
    && (f.top <= f.regs.sp || f.top == a.sp + a.size)
    && SpOk(a, fs, f.regs.sp)
    && (f.alt == ToStackT(Off) || f.alt == ToStackT(a))
    && (fs != [] ==>
          var g := fs[|fs| - 1];
          && (Inside(a, g) ==> Inside(a, f) && (a.autodisarm ==> f.alt == ToStackT(Off)))
          && ((Inside(a, f) <==> Inside(a, g)) ==> f.top <= g.entry))
  }

  predicate Stacked(a: Alt, abi: Abi, fs: seq<Frame>)
    requires a.On?
  {
    fs == [] || (var n := |fs| - 1; OnTop(a, abi, fs[..n], fs[n]) && Stacked(a, abi, fs[..n]))
  }

  predicate Placed(a: Alt, s: State)
    requires a.On?
  {
    && (s.alt == Off || s.alt == a)
    && Stacked(a, s.abi, s.frames)
    && SpOk(a, s.frames, s.regs.sp)
    && (a.autodisarm && s.alt == a && s.frames != [] ==> !Inside(a, TopFrame(s)))
  }

  lemma PlacedFrame(a: Alt, s: State, x: Instance, act: Action)
    requires a.On? && act.Handler? && Placed(a, s)
    requires var f := MakeFrame(s, x, act);
             if OnRegion(a, s.regs.sp) || f.top == a.sp + a.size then a.sp < f.entry else Outside(a, f)
    ensures OnTop(a, s.abi, s.frames, MakeFrame(s, x, act))
    ensures SpOk(a, s.frames + [MakeFrame(s, x, act)], MakeFrame(s, x, act).entry)
    ensures a.autodisarm && s.alt == Off && OnRegion(a, s.regs.sp) ==> Inside(a, MakeFrame(s, x, act))
  {
    EntrySpAligned(s.abi, MakeFrame(s, x, act).top);
  }

  lemma PlacedPush(a: Alt, s: State, x: Instance, act: Action)
    requires a.On? && act.Handler? && Placed(a, s)
    requires var f := MakeFrame(s, x, act);
             if OnRegion(a, s.regs.sp) || f.top == a.sp + a.size then a.sp < f.entry else Outside(a, f)
    ensures Placed(a, Push(s, x, act))
  {
    PlacedFrame(a, s, x, act);
    var t := Push(s, x, act);
    assert t.frames[..|s.frames|] == s.frames;
  }

  lemma PlacedReturn(a: Alt, s: State)
    requires a.On? && s.frames != [] && Placed(a, s)
    ensures Placed(a, ReturnFrom(s))
  {
  }

  lemma {:induction false} StackedPrefix(a: Alt, abi: Abi, fs: seq<Frame>, d: nat)
    requires a.On? && d <= |fs| && Stacked(a, abi, fs)
    ensures Stacked(a, abi, fs[..d])
    ensures a.autodisarm && d > 0 && Inside(a, fs[d - 1]) ==> Inside(a, fs[|fs| - 1])
    decreases |fs|
  {
    if d == |fs| {
      assert fs[..d] == fs;
    } else {
      var n := |fs| - 1;
      StackedPrefix(a, abi, fs[..n], d);
      assert fs[..n][..d] == fs[..d];
    }
  }

  lemma PlacedLongjmp(a: Alt, s: State, d: nat, r: Regs)
    requires a.On? && d <= |s.frames| && Placed(a, s) && SpOk(a, s.frames[..d], r.sp)
    ensures Placed(a, s.(frames := s.frames[..d], regs := r))
  {
    StackedPrefix(a, s.abi, s.frames, d);
  }

  lemma PlacedDeliver(a: Alt, s: State)
    requires a.On? && CanDeliver(s) && Room(a, s) && Placed(a, s)
    ensures Placed(a, DeliverNext(s))
  {
    var k := Pick(s.pending, s.mask);
    var x := s.pending[k];
    var act := ActionOf(s.actions, x.sig);
    if act.Handler? {
      PlacedPush(a, s.(pending := Remove(s.pending, k)), x, act);
    }
  }

  lemma PlacedEdit(a: Alt, s: State, m: set<Sig>)
    requires a.On? && s.frames != [] && Placed(a, s)
    ensures Placed(a, EditTop(s, TopFrame(s).(mask := m)))
  {
    var n := |s.frames| - 1;
    assert EditTop(s, TopFrame(s).(mask := m)).frames[..n] == s.frames[..n];
  }

  lemma PlacedInstall(a: Alt, s: State, sig: Sig, act: Action)
    requires a.On? && Placed(a, s)
    ensures Placed(a, InstallAction(s, sig, act))
  {
  }

  lemma PlacedStep(a: Alt, s: State, e: Event)
    requires a.On? && Enabled(s, e) && Disciplined(a, s, e) && Placed(a, s)
    ensures Placed(a, Next(s, e))
  {
    match e
    case Deliver => PlacedDeliver(a, s);
    case Return => PlacedReturn(a, s);
    case Longjmp(d, r) => PlacedLongjmp(a, s, d, r);
    case EditMask(m) => PlacedEdit(a, s, m);
    case Install(sig, act) => PlacedInstall(a, s, sig, act);
    case _ => PlacedOther(a, s, e);
  }

  lemma PlacedOther(a: Alt, s: State, e: Event)
    requires a.On? && Enabled(s, e) && Disciplined(a, s, e) && Placed(a, s)
    requires !e.Deliver? && !e.Return? && !e.Longjmp? && !e.EditMask? && !e.Install?
    ensures Placed(a, Next(s, e))
  {
    var t := Next(s, e);
    assert t.abi == s.abi && t.frames == s.frames;
    assert t.alt == s.alt || s.frames == [];
  }

  lemma {:induction false} StackedEach(a: Alt, abi: Abi, fs: seq<Frame>, i: nat)
    requires a.On? && Stacked(a, abi, fs) && i < |fs|
    ensures fs[i].entry % 16 == 16 - WordSize(abi)
    ensures fs[i].top <= fs[i].regs.sp || fs[i].top == a.sp + a.size
    decreases |fs|
  {
    var n := |fs| - 1;
    if i < n {
      StackedEach(a, abi, fs[..n], i);
    }
  }

  lemma {:induction false} StackedIsDisjoint(a: Alt, abi: Abi, fs: seq<Frame>)
    requires a.On? && Stacked(a, abi, fs)
    ensures forall i :: 0 <= i < |fs| ==> Inside(a, fs[i]) || Outside(a, fs[i])
    ensures forall i :: 0 <= i < |fs| - 1 ==> Inside(a, fs[i]) ==> Inside(a, fs[|fs| - 1])
    ensures forall i :: 0 <= i < |fs| - 1 ==>
              (Inside(a, fs[i]) <==> Inside(a, fs[|fs| - 1])) ==> fs[|fs| - 1].top <= fs[i].entry
    ensures forall i, j :: 0 <= i < j < |fs| ==> fs[j].top <= fs[i].entry || fs[i].top <= fs[j].entry
  {
    if |fs| > 0 {
      var n := |fs| - 1;
      StackedIsDisjoint(a, abi, fs[..n]);
      forall i | 0 <= i < n ensures
          && (Inside(a, fs[i]) ==> Inside(a, fs[n]))
          && ((Inside(a, fs[i]) <==> Inside(a, fs[n])) ==> fs[n].top <= fs[i].entry)
          && (fs[n].top <= fs[i].entry || fs[i].top <= fs[n].entry) {
        assert fs[i] == fs[..n][i] && fs[n - 1] == fs[..n][n - 1];
      }
    }
  }

  /** In every reachable state of a disciplined run the live frames are pairwise disjoint, each is
      wholly inside the alternate stack or wholly outside it, each is aligned, and each lies below the
      stack pointer it interrupted or at the top of the alternate stack. */
  lemma {:induction false} LiveFramesDisjoint(a: Alt, s: State, es: seq<Event>)
    requires a.On? && s.frames == [] && (s.alt == Off || s.alt == a) && !OnRegion(a, s.regs.sp)
    requires Throughout(s, es, (t, e) => Disciplined(a, t, e))
    ensures Feasible(s, es)
    ensures var fs := Exec(s, es).frames;
            && (forall i, j :: 0 <= i < j < |fs| ==> fs[j].top <= fs[i].entry || fs[i].top <= fs[j].entry)
            && (forall i :: 0 <= i < |fs| ==> Inside(a, fs[i]) || Outside(a, fs[i]))
            && (forall i :: 0 <= i < |fs| ==> fs[i].entry % 16 == 16 - WordSize(Exec(s, es).abi))
            && (forall i :: 0 <= i < |fs| ==> fs[i].top <= fs[i].regs.sp || fs[i].top == a.sp + a.size)
  {
    var ok := (t: State, e: Event) => Disciplined(a, t, e);
    var inv := (t: State) => Placed(a, t);
    forall t, e | inv(t) && Enabled(t, e) && ok(t, e) ensures inv(Next(t, e)) {
      PlacedStep(a, t, e);
    }
    assert Throughout(s, es, ok);
    RunInduction(s, es, ok, inv);
    var t := Exec(s, es);
    StackedIsDisjoint(a, t.abi, t.frames);
    forall i | 0 <= i < |t.frames| ensures
        && t.frames[i].entry % 16 == 16 - WordSize(t.abi)
        && (t.frames[i].top <= t.frames[i].regs.sp || t.frames[i].top == a.sp + a.size) {
      StackedEach(a, t.abi, t.frames, i);
    }
  }
}
