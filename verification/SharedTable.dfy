/** `signal-table-thread`: a handler that one thread installs runs in whichever thread of the process
    the signal is raised, for every moment at which the parent blocks its signals. */
module SharedTable {
  import opened Signals
  import opened Queue
  import opened Machine
  import opened UserCalls
  import opened Tables

  /** The thread of a task, outside handlers and with nothing pending. */
  function Running(abi: Abi, regs: Regs, mask: set<Sig>, actions: map<Sig, Action>): State {
    Fresh(abi, regs).(mask := mask, actions := actions)
  }

  lemma RaiseEnters(k: State, sig: Sig)
    requires InUserMode(k) && k.pending == [] && k.frames == [] && ActionOf(k.actions, sig).Handler?
    ensures var t := Settle(SendTo(k, Instance(sig, 0)));
            if sig in k.mask then t.frames == []
            else |t.frames| == 1 && t.regs.pc == ActionOf(k.actions, sig).code && TopFrame(t).mask == k.mask
  {
    var x := Instance(sig, 0);
    if sig in k.mask {
      SendBlocked(k, x);
    } else {
      RaiseOpen(k, x);
    }
  }

  /** `raise` in task `t`: the handler it enters there is the one its process's table holds. */
  method Raise(sys: System, t: nat, sig: Sig, abi: Abi, regs: Regs, ghost v: View) returns (entered: seq<int>)
    requires sys.Shows(v) && t < |sys.tasks|
    requires v.threads[t].pid in v.tables && ActionOf(v.tables[v.threads[t].pid], sig).Handler?
    ensures entered == if sig in v.threads[t].mask then [] else [ActionOf(v.tables[v.threads[t].pid], sig).code]
  {
    var k := Running(abi, regs, sys.tasks[t].mask, sys.tasks[t].table.actions);
    assert !Eligible(k.pending, k.mask);
    RaiseEnters(k, sig);
    var s := Settle(SendTo(k, Instance(sig, 0)));
    entered := if s.frames == [] then [] else [s.regs.pc];
  }

  const HANDLER: Action := Handler(0x1000, {}, false, false, false, false)
  const HANDLER2: Action := Handler(0x2000, {}, false, false, false, false)

  const FIRST: Op := Op.Sigaction(0, SIGUSR1, HANDLER)
  const SECOND: Op := Op.Sigaction(1, SIGUSR2, HANDLER2)
  const BLOCK: Op := Op.Sigmask(0, BlockSet, FULL)
  const UNBLOCK: Op := Op.Sigmask(0, UnblockSet, FULL)

  /** The process after `step` steps of its second thread, the first blocking `mask`. */
  predicate Seen(v: View, step: nat, mask: set<Sig>) {
    && ViewOk(v) && |v.threads| == 2 && v.threads[0] == Thread(0, mask) && v.threads[1] == Thread(0, {})
    && 0 in v.tables && ActionOf(v.tables[0], SIGUSR1) == HANDLER
    && (step > 1 ==> ActionOf(v.tables[0], SIGUSR2) == HANDLER2)
  }

  /** The parent's mask before step `step`, if it blocks everything before step `blockAt`. */
  function Masked(blockAt: nat, step: nat): set<Sig> {
    if step > blockAt then Filter(FULL) else {}
  }

  /** The process, on the heap of tables. */
  ghost predicate At(sys: System, v: View, step: nat, mask: set<Sig>)
    reads sys, sys.tasks, sys.heap.Values
  {
    sys.Shows(v) && Seen(v, step, mask)
  }

  function Start(): View {
    View([Thread(0, {})], map[0 := map[]], 1)
  }

  lemma SeenAtStart()
    ensures ViewOk(Start()) && ViewOk(Performed(Start(), FIRST))
    ensures Seen(Performed(Performed(Start(), FIRST), Op.Clone(0)), 0, {})
  {
  }

  lemma SeenBlocks(v: View, step: nat)
    requires Seen(v, step, {})
    ensures Seen(Performed(v, BLOCK), step, Filter(FULL))
  {
  }

  lemma SeenStep(v: View, step: nat, mask: set<Sig>)
    requires Seen(v, step, mask)
    ensures Seen(if step == 1 then Performed(v, SECOND) else v, step + 1, mask)
  {
  }

  /** `main` up to the creation of the thread. */
  method SetUp() returns (sys: System, ghost v: View)
    ensures fresh(sys) && fresh(sys.repr) && At(sys, v, 0, {})
  {
    SeenAtStart();
    sys := new System({});
    Prepare(sys);
    v := Performed(Performed(Start(), FIRST), Op.Clone(0));
  }

  /** The first handler, and the thread. */
  method Prepare(sys: System)
    requires sys.Shows(Start()) && ViewOk(Performed(Start(), FIRST))
    modifies sys, sys.repr
    ensures sys.Shows(Performed(Performed(Start(), FIRST), Op.Clone(0))) && fresh(sys.repr - old(sys.repr))
  {
    sys.Perform(FIRST, Start());
    sys.Perform(Op.Clone(0), Performed(Start(), FIRST));
  }

  /** One step of the new thread: a query, whose result is checked, its `sigaction`, its `raise`. */
  method ThreadStep(sys: System, step: nat, abi: Abi, regs: Regs, ghost v: View, ghost mask: set<Sig>)
    returns (checked: bool, entered: seq<int>)
    requires sys.Shows(v) && Seen(v, step, mask)
    modifies sys, sys.repr
    ensures sys.Shows(if step == 1 then Performed(v, SECOND) else v) && sys.repr == old(sys.repr)
    ensures checked && entered == if step == 2 then [HANDLER.code] else []
  {
    checked, entered := true, [];
    if step == 0 {
      var oldSa := sys.Query(1, SIGUSR1, v);
      checked := oldSa == HANDLER;
    } else if step == 1 {
      sys.Perform(SECOND, v);
    } else if step == 2 {
      entered := Raise(sys, 1, SIGUSR1, abi, regs, v);
    }
  }

  /** The parent blocks everything. */
  method BlockAll(sys: System, step: nat, ghost v: View)
    requires sys.Shows(v) && Seen(v, step, {})
    modifies sys, sys.repr
    ensures sys.Shows(Performed(v, BLOCK)) && sys.repr == old(sys.repr)
    ensures Seen(Performed(v, BLOCK), step, Filter(FULL))
  {
    SeenBlocks(v, step);
    sys.Perform(BLOCK, v);
  }

  /** One step of the new thread, after the parent's `pthread_sigmask` if that comes here. */
  method Turn(sys: System, step: nat, blocks: bool, abi: Abi, regs: Regs, ghost v: View, ghost mask: set<Sig>)
    returns (checked: bool, entered: seq<int>, ghost w: View)
    requires At(sys, v, step, if blocks then {} else mask)
    requires blocks ==> mask == Filter(FULL)
    modifies sys, sys.repr
    ensures At(sys, w, step + 1, mask) && sys.repr == old(sys.repr)
    ensures checked && entered == if step == 2 then [HANDLER.code] else []
  {
    w := v;
    if blocks {
      BlockAll(sys, step, v);
      w := Performed(v, BLOCK);
    }
    SeenStep(w, step, mask);
    checked, entered := ThreadStep(sys, step, abi, regs, w, mask);
    w := if step == 1 then Performed(w, SECOND) else w;
  }

  /** `main` after it has joined the thread. */
  method Finish(sys: System, abi: Abi, regs: Regs, ghost v: View) returns (checked: bool, entered: seq<int>)
    requires At(sys, v, 4, Filter(FULL))
    modifies sys, sys.repr
    ensures checked && entered == [HANDLER2.code]
  {
    var oldSa := sys.Query(0, SIGUSR2, v);
    checked := oldSa == HANDLER2;
    sys.Perform(UNBLOCK, v);
    entered := Raise(sys, 0, SIGUSR2, abi, regs, Performed(v, UNBLOCK));
  }

  class SignalTableThread {
    var childTid: nat
    var parentTid: nat
    var isOk: bool
    var isOk2: bool
    var failed: bool

    constructor ()
      ensures childTid == 0 && parentTid == 0 && !isOk && !isOk2 && !failed
    {
      childTid, parentTid, isOk, isOk2, failed := 0, 0, false, false, false;
    }

    method SignalHandler(tid: nat)
      modifies this`isOk, this`failed
      ensures isOk && failed == (old(failed) || childTid != tid)
    {
      failed := failed || childTid != tid;
      isOk := true;
    }

    method SignalHandler2(tid: nat)
      modifies this`isOk2, this`failed
      ensures isOk2 && failed == (old(failed) || parentTid != tid)
    {
      failed := failed || parentTid != tid;
      isOk2 := true;
    }

    /** The handlers at the addresses that a `raise` entered, in thread `tid`. */
    method Enter(entered: seq<int>, tid: nat)
      requires |entered| <= 1
      modifies this`isOk, this`isOk2, this`failed
      ensures var first := entered == [HANDLER.code];
              var second := entered != [] && !first;
              && isOk == (old(isOk) || first) && isOk2 == (old(isOk2) || second)
              && failed == (old(failed) || (first && childTid != tid) || (second && parentTid != tid))
    {
      if entered != [] {
        if entered[0] == HANDLER.code { SignalHandler(tid); } else { SignalHandler2(tid); }
      }
    }

    /** The globals after `step` steps of the new thread. */
    predicate Flags(step: nat)
      reads this
    {
      childTid == 1 && parentTid == 0 && isOk == (step > 2) && !isOk2 && !failed
    }

    /** A step of the new thread and the handler it enters. */
    method OneTurn(sys: System, step: nat, blocks: bool, abi: Abi, regs: Regs, ghost v: View, ghost mask: set<Sig>)
      returns (ghost w: View)
      requires At(sys, v, step, if blocks then {} else mask) && this !in sys.repr && Flags(step)
      requires blocks ==> mask == Filter(FULL)
      modifies this, sys, sys.repr
      ensures At(sys, w, step + 1, mask) && sys.repr == old(sys.repr) && Flags(step + 1)
    {
      var checked, entered;
      checked, entered, w := Turn(sys, step, blocks, abi, regs, v, mask);
      NoteTurn(step, checked, entered);
    }

    /** What a step of the new thread does to the globals. */
    method NoteTurn(step: nat, checked: bool, entered: seq<int>)
      requires Flags(step) && checked && entered == if step == 2 then [HANDLER.code] else []
      modifies this`isOk, this`isOk2, this`failed
      ensures Flags(step + 1)
    {
      Note(checked, entered, 1);
    }

    method Note(checked: bool, entered: seq<int>, tid: nat)
      requires |entered| <= 1
      modifies this`isOk, this`isOk2, this`failed
      ensures var first := entered == [HANDLER.code];
              var second := entered != [] && !first;
              && isOk == (old(isOk) || first) && isOk2 == (old(isOk2) || second)
              && failed == (old(failed) || !checked || (first && childTid != tid) || (second && parentTid != tid))
    {
      failed := failed || !checked;
      Enter(entered, tid);
    }

    /** Wherever among the steps of the new thread the parent blocks everything, each handler runs in
        the thread that raised its signal, though the other thread installed it. */
    method Drive(abi: Abi, regs: Regs, blockAt: nat)
      requires blockAt <= 3 && !isOk && !isOk2 && !failed
      modifies this
      ensures isOk && isOk2 && !failed
    {
      var sys;
      ghost var v;
      sys, v := SetUp();
      parentTid, childTid := 0, 1;
      v := AllTurns(sys, abi, regs, blockAt, v);
      var checked, entered := Finish(sys, abi, regs, v);
      Note(checked, entered, 0);
    }

    method AllTurns(sys: System, abi: Abi, regs: Regs, blockAt: nat, ghost v: View) returns (ghost w: View)
      requires At(sys, v, 0, {}) && this !in sys.repr && Flags(0) && blockAt <= 3
      modifies this, sys, sys.repr
      ensures At(sys, w, 4, Filter(FULL)) && sys.repr == old(sys.repr) && Flags(4)
    {
      w := v;
      for i := 0 to 4
        invariant At(sys, w, i, Masked(blockAt, i)) && sys.repr == old(sys.repr) && Flags(i)
      {
        w := OneTurn(sys, i, i == blockAt, abi, regs, w, Masked(blockAt, i + 1));
      }
    }
  }
}
