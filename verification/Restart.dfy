/** Blocking calls under signals (`restartable-read`, `-write`, `-sem_wait`): a call interrupted by
    any number of SA_RESTART handlers behaves like the call nobody interrupted. */
module Restart {
  import opened Signals
  import opened Queue
  import opened Machine

  /** The blocking call: its number, the address of its instruction, and what it returns once the
      pipe has data or room, or the semaphore a token. */
  datatype Spec = Spec(nr: int, callSite: int, value: nat)

  /** A thread about to make, making or having made the call. `ready` says the resource is there,
      `called` that the call was made at least once, `broke` that a handler without SA_RESTART
      interrupted it. */
  datatype Conf = Conf(thread: State, ready: bool, called: bool, finished: bool, broke: bool)

  datatype Move = Supplies | Sends(inst: Instance) | Calls | Completes | Delivers | Returns

  predicate CanMove(p: Spec, c: Conf, m: Move) {
    match m
    case Supplies => !c.ready
    case Sends(_) => true
    case Calls => InUserMode(c.thread) && c.thread.frames == [] && !c.finished && c.thread.regs.pc == p.callSite
    case Completes => c.thread.status.Alive? && c.thread.sleep.InCall? && c.ready
    case Delivers => CanDeliver(c.thread)
    case Returns => InUserMode(c.thread) && c.thread.frames != []
  }

  function NextAction(s: State): Action
    requires CanDeliver(s)
  {
    ActionOf(s.actions, s.pending[Pick(s.pending, s.mask)].sig)
  }

  /** The delivery pushes a frame on a sleeping call that will not restart. */
  predicate Breaks(s: State) {
    CanDeliver(s) && s.sleep.InCall? && NextAction(s).Handler? && !NextAction(s).restart
  }

  function Moved(p: Spec, c: Conf, m: Move): Conf
    requires CanMove(p, c, m)
  {
    match m
    case Supplies => c.(ready := true)
    case Sends(x) => c.(thread := Next(c.thread, Send(x)))
    case Calls => c.(thread := Next(c.thread, Call(p.nr)), called := true)
    case Completes => c.(thread := Next(c.thread, Complete(p.value)), finished := true)
    case Delivers =>
      var breaks := Breaks(c.thread);
      c.(thread := Next(c.thread, Deliver), broke := c.broke || breaks, finished := c.finished || breaks)
    case Returns => c.(thread := Next(c.thread, Return))
  }

  ghost predicate IsRun(p: Spec, run: seq<Conf>, moves: seq<Move>) {
    && |run| == |moves| + 1
    && forall i :: 0 <= i < |moves| ==> CanMove(p, run[i], moves[i]) && run[i + 1] == Moved(p, run[i], moves[i])
  }

  /** At the call instruction with the call number loaded, nothing pending, no handler live. */
  predicate AtCall(p: Spec, c: Conf) {
    && InUserMode(c.thread) && c.thread.frames == [] && c.thread.pending == []
    && c.thread.mask !! UNBLOCKABLE
    && c.thread.regs.pc == p.callSite && c.thread.regs.rax == p.nr
    && !c.ready && !c.called && !c.finished && !c.broke
  }

  /** The new thread of the programs at its call: it has its creator's mask and the installed handler. */
  function AtStart(p: Spec, abi: Abi, regs: Regs, sig: Sig, act: Action): Conf {
    var k := InstallAction(Fresh(abi, regs), sig, act);
    Conf(k.(regs := Regs(regs.sp, p.callSite, p.nr)), false, false, false, false)
  }

  lemma StartsAtCall(p: Spec, abi: Abi, regs: Regs, sig: Sig, act: Action)
    ensures AtCall(p, AtStart(p, abi, regs, sig, act))
  {
  }

  // ---------------------------------------------------------------- the interrupted context

  /** The registers the program itself will continue with, under all live frames. */
  function Bottom(s: State): Regs {
    if s.frames == [] then s.regs else s.frames[0].regs
  }

  function BottomMask(s: State): set<Sig> {
    if s.frames == [] then s.mask else s.frames[0].mask
  }

  /** What the call amounts to so far. */
  predicate Faithful(p: Spec, c0: Conf, c: Conf) {
    && BottomMask(c.thread) == c0.thread.mask
    && Bottom(c.thread).sp == c0.thread.regs.sp
    && !c.thread.sleep.InSuspend?
    && (if c.thread.sleep.InCall? then
          && c.thread.frames == [] && c.thread.sleep.nr == p.nr
          && c.thread.regs.pc == p.callSite + SYSCALL_LENGTH && c.called && !c.finished
        else if c.finished then
          && Bottom(c.thread).pc == p.callSite + SYSCALL_LENGTH
          && Bottom(c.thread).rax == (if c.broke then -EINTR else p.value)
        else
          Bottom(c.thread).pc == p.callSite && Bottom(c.thread).rax == p.nr)
    && (c.broke ==> c.finished)
    && (c.finished && !c.broke ==> c.ready && c.called)
  }

  /** A frame on top of the context saves what `Interrupted` says and leaves the rest below. */
  lemma DeliverKeepsBottom(s: State)
    requires CanDeliver(s)
    ensures var t := DeliverNext(s);
            if NextAction(s).Handler? then
              && t.sleep.Awake? && t.frames != []
              && Bottom(t) == (if s.frames == [] then Interrupted(s, NextAction(s).restart) else Bottom(s))
              && BottomMask(t) == (if s.frames == [] then Home(s) else BottomMask(s))
            else
              t.sleep == s.sleep && t.frames == s.frames && t.regs == s.regs && t.mask == s.mask
  {
    if NextAction(s).Handler? {
      DeliverHandler(s);
    }
  }

  lemma FaithfulDeliver(p: Spec, c0: Conf, c: Conf)
    requires AtCall(p, c0) && Faithful(p, c0, c) && CanMove(p, c, Delivers)
    ensures Faithful(p, c0, Moved(p, c, Delivers))
  {
    DeliverKeepsBottom(c.thread);
  }

  lemma FaithfulReturn(p: Spec, c0: Conf, c: Conf)
    requires AtCall(p, c0) && Faithful(p, c0, c) && CanMove(p, c, Returns)
    ensures Faithful(p, c0, Moved(p, c, Returns))
  {
    assert Filter(c0.thread.mask) == c0.thread.mask;
  }

  lemma FaithfulStep(p: Spec, c0: Conf, c: Conf, m: Move)
    requires AtCall(p, c0) && Faithful(p, c0, c) && CanMove(p, c, m)
    ensures Faithful(p, c0, Moved(p, c, m))
  {
    match m
    case Delivers => FaithfulDeliver(p, c0, c);
    case Returns => FaithfulReturn(p, c0, c);
    case _ =>
  }

  lemma {:induction false} RunIsFaithful(p: Spec, run: seq<Conf>, moves: seq<Move>, i: nat)
    requires IsRun(p, run, moves) && AtCall(p, run[0]) && i < |run|
    ensures Faithful(p, run[0], run[i])
  {
    if i > 0 {
      RunIsFaithful(p, run, moves, i - 1);
      FaithfulStep(p, run[0], run[i - 1], moves[i - 1]);
    }
  }

  /** What the handlers assert: while the call is not over, the bottom frame was saved with the
      instruction pointer on the call instruction and the call number in RAX. */
  lemma HandlersSeeTheRewoundCall(p: Spec, run: seq<Conf>, moves: seq<Move>, i: nat)
    requires IsRun(p, run, moves) && AtCall(p, run[0]) && i < |run|
    ensures var c := run[i];
            c.thread.frames != [] && !c.finished ==>
              c.thread.frames[0].regs.pc == p.callSite && c.thread.frames[0].regs.rax == p.nr
  {
    RunIsFaithful(p, run, moves, i);
  }

  /** When the program continues past its call, with all handlers returned, it has the call's value
      if and only if no handler without SA_RESTART interrupted the call, and -EINTR otherwise. */
  lemma CallFailsOnlyWhenBroken(p: Spec, run: seq<Conf>, moves: seq<Move>, i: nat)
    requires IsRun(p, run, moves) && AtCall(p, run[0]) && i < |run|
    ensures var c := run[i];
            c.finished && c.thread.frames == [] ==>
              && c.thread.regs.pc == p.callSite + SYSCALL_LENGTH && c.thread.mask == run[0].thread.mask
              && (c.thread.regs.rax == p.value <==> !c.broke)
              && (c.thread.regs.rax == -EINTR <==> c.broke)
  {
    RunIsFaithful(p, run, moves, i);
  }

  // ---------------------------------------------------------------- progress

  /** Moves still to be made until the call is over, not counting further sends. */
  function Remaining(c: Conf): nat {
    4 * |c.thread.pending| + 2 * |c.thread.frames| + (if c.ready then 0 else 1)
    + (if c.finished then 0 else if c.thread.sleep.InCall? then 1 else 2)
  }

  /** While the thread is alive, the call is not stuck: some move other than a send is possible, and every
      such move brings its end nearer, restarts included. */
  lemma CallGoesOn(p: Spec, run: seq<Conf>, moves: seq<Move>, i: nat)
    requires IsRun(p, run, moves) && AtCall(p, run[0]) && i < |run|
    requires run[i].thread.status.Alive? && !run[i].finished
    ensures exists m :: CanMove(p, run[i], m) && !m.Sends?
    ensures forall m :: CanMove(p, run[i], m) && !m.Sends? ==> Remaining(Moved(p, run[i], m)) < Remaining(run[i])
  {
    RunIsFaithful(p, run, moves, i);
    var c := run[i];
    if !c.ready {
      assert CanMove(p, c, Supplies);
    } else if CanDeliver(c.thread) {
      assert CanMove(p, c, Delivers);
    } else if c.thread.sleep.InCall? {
      assert CanMove(p, c, Completes);
    } else if c.thread.frames != [] {
      assert CanMove(p, c, Returns);
    } else {
      assert CanMove(p, c, Calls);
    }
    if CanDeliver(c.thread) {
      DeliverCounts(p, c);
    }
  }

  lemma DeliverCounts(p: Spec, c: Conf)
    requires CanMove(p, c, Delivers)
    ensures Remaining(Moved(p, c, Delivers)) < Remaining(c)
  {
    var _, _ := DeliverShape(c.thread);
  }

  // ---------------------------------------------------------------- the uninterrupted call

  /** The configuration of the same program when no signal is ever sent to it. */
  function Undisturbed(p: Spec, c0: Conf, c: Conf): Conf {
    var s := c0.thread;
    var pastCall := s.regs.(pc := s.regs.pc + SYSCALL_LENGTH);
    c.(thread := if c.finished then s.(regs := pastCall.(rax := p.value))
                 else if c.called then s.(regs := pastCall, sleep := InCall(p.nr))
                 else s)
  }

  /** Interruptions go, and so does every re-execution of the call after the first. */
  predicate Kept(c: Conf, m: Move) {
    m.Supplies? || m.Completes? || (m.Calls? && !c.called)
  }

  ghost function KeptMoves(p: Spec, run: seq<Conf>, moves: seq<Move>, n: nat): seq<Move>
    requires IsRun(p, run, moves) && n <= |moves|
  {
    if n == 0 then []
    else KeptMoves(p, run, moves, n - 1) + (if Kept(run[n - 1], moves[n - 1]) then [moves[n - 1]] else [])
  }

  lemma UndisturbedStep(p: Spec, c0: Conf, c: Conf, m: Move)
    requires AtCall(p, c0) && Faithful(p, c0, c) && CanMove(p, c, m) && !Moved(p, c, m).broke
    requires !c.finished || !m.Completes?
    ensures Kept(c, m) ==>
              CanMove(p, Undisturbed(p, c0, c), m)
              && Moved(p, Undisturbed(p, c0, c), m) == Undisturbed(p, c0, Moved(p, c, m))
    ensures !Kept(c, m) ==> Undisturbed(p, c0, Moved(p, c, m)) == Undisturbed(p, c0, c)
  {
  }

  /** The run of the program alone: only its own moves and the supplier's. */
  ghost predicate Reaches(p: Spec, c: Conf, moves: seq<Move>, d: Conf)
    decreases |moves|
  {
    if moves == [] then c == d
    else
      var n := |moves| - 1;
      exists e :: Reaches(p, c, moves[..n], e) && CanMove(p, e, moves[n]) && Moved(p, e, moves[n]) == d
  }

  lemma BrokenStaysBroken(p: Spec, run: seq<Conf>, moves: seq<Move>, i: nat)
    requires IsRun(p, run, moves) && i + 1 < |run| && !run[i + 1].broke
    ensures !run[i].broke
  {
    assert run[i + 1] == Moved(p, run[i], moves[i]);
  }

  /** However many SA_RESTART handlers interrupt the call, and wherever they do, erasing the
      interruptions and the re-executions leaves a run of the undisturbed program, and it ends with
      the same result. */
  lemma {:induction false} RestartIsInvisible(p: Spec, run: seq<Conf>, moves: seq<Move>, n: nat)
    requires IsRun(p, run, moves) && AtCall(p, run[0]) && n <= |moves| && !run[n].broke
    ensures Reaches(p, run[0], KeptMoves(p, run, moves, n), Undisturbed(p, run[0], run[n]))
    ensures run[n].finished && run[n].thread.frames == [] ==>
              run[n].thread.regs == Undisturbed(p, run[0], run[n]).thread.regs
  {
    RunIsFaithful(p, run, moves, n);
    if n == 0 {
      assert Undisturbed(p, run[0], run[0]) == run[0];
    } else {
      BrokenStaysBroken(p, run, moves, n - 1);
      RestartIsInvisible(p, run, moves, n - 1);
      RunIsFaithful(p, run, moves, n - 1);
      var c, m := run[n - 1], moves[n - 1];
      UndisturbedStep(p, run[0], c, m);
      var before := KeptMoves(p, run, moves, n - 1);
      if Kept(c, m) {
        assert (before + [m])[..|before|] == before;
        assert Reaches(p, run[0], before + [m], Undisturbed(p, run[0], run[n]));
      } else {
        assert before + [] == before;
      }
    }
  }
}
