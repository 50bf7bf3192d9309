/** What every run of the machine keeps: no instance is lost or served twice, standard
    signals do not queue, KILL and STOP are never blocked, one-shot handlers run once. */
module Accounting {
  import opened Signals
  import opened Queue
  import opened Machine

  // ---------------------------------------------------------------- conservation

  /** A send counts for an instance, each fate it can meet counts against it. */
  function Weight(e: Entry, inst: Instance): int {
    if e.inst != inst then 0 else if e.fate == Sent then 1 else -1
  }

  function Credit(log: seq<Entry>, inst: Instance): int {
    if log == [] then 0
    else Credit(log[..|log| - 1], inst) + Weight(log[|log| - 1], inst)
  }

  /** Instances like `inst` that were sent, less those that met a fate or are still pending. */
  function Missing(s: State, inst: Instance): int {
    Credit(s.log, inst) - multiset(s.pending)[inst]
  }

  lemma {:induction false} CreditConcat(a: seq<Entry>, b: seq<Entry>, inst: Instance)
    ensures Credit(a + b, inst) == Credit(a, inst) + Credit(b, inst)
  {
    if b == [] {
      assert a + b == a;
    } else {
      assert (a + b)[..|a + b| - 1] == a + b[..|b| - 1];
      CreditConcat(a, b[..|b| - 1], inst);
    }
  }

  lemma CreditOne(log: seq<Entry>, e: Entry, inst: Instance)
    ensures Credit(log + [e], inst) == Credit(log, inst) + Weight(e, inst)
  {
    assert (log + [e])[..|log|] == log;
  }

  lemma MultisetHead(x: Instance, q: seq<Instance>, inst: Instance)
    ensures multiset([x] + q)[inst] == (if x == inst then 1 else 0) + multiset(q)[inst]
  {
    assert multiset([x] + q) == multiset{x} + multiset(q);
  }

  lemma CreditDiscardedHead(x: Instance, q: seq<Instance>, inst: Instance)
    ensures Credit(AllDiscarded([x] + q), inst) == Credit(AllDiscarded(q), inst) - (if x == inst then 1 else 0)
  {
    var e := Entry(Discarded, x);
    assert ([x] + q)[1..] == q && [] + [e] == [e];
    assert AllDiscarded([x] + q) == [e] + AllDiscarded(q);
    CreditConcat([e], AllDiscarded(q), inst);
    CreditOne([], e, inst);
  }

  /** What a flush leaves and what it discards make up the queue. */
  function Flushed(q: seq<Instance>, sig: Sig, inst: Instance): int {
    multiset(DropSig(q, sig))[inst] - Credit(AllDiscarded(OnlySig(q, sig)), inst)
  }

  lemma FlushedHead(x: Instance, q: seq<Instance>, sig: Sig, inst: Instance)
    ensures Flushed([x] + q, sig, inst) == (if x == inst then 1 else 0) + Flushed(q, sig, inst)
  {
    assert ([x] + q)[1..] == q;
    if x.sig == sig {
      assert DropSig([x] + q, sig) == DropSig(q, sig);
      CreditDiscardedHead(x, OnlySig(q, sig), inst);
    } else {
      assert OnlySig([x] + q, sig) == OnlySig(q, sig);
      MultisetHead(x, DropSig(q, sig), inst);
    }
  }

  lemma {:induction false} FlushConserves(q: seq<Instance>, sig: Sig, inst: Instance)
    ensures multiset(q)[inst] == Flushed(q, sig, inst)
  {
    if q != [] {
      FlushConserves(q[1..], sig, inst);
      assert q == [q[0]] + q[1..];
      MultisetHead(q[0], q[1..], inst);
      FlushedHead(q[0], q[1..], sig, inst);
    }
  }

  lemma SendConserves(s: State, x: Instance, inst: Instance)
    ensures Missing(SendTo(s, x), inst) == Missing(s, inst)
  {
    CreditOne(s.log, Entry(Sent, x), inst);
    CreditOne(s.log + [Entry(Sent, x)], Entry(Discarded, x), inst);
    CreditOne(s.log + [Entry(Sent, x)], Entry(Coalesced, x), inst);
  }

  lemma DeliverConserves(s: State, inst: Instance)
    requires CanDeliver(s)
    ensures Missing(DeliverNext(s), inst) == Missing(s, inst)
  {
    var x, f := DeliverShape(s);
    RemoveMultiset(s.pending, Pick(s.pending, s.mask));
    CreditOne(s.log, Entry(f, x), inst);
  }

  lemma WaitConserves(s: State, m: set<Sig>, inst: Instance)
    ensures Missing(WaitFor(s, m), inst) == Missing(s, inst)
  {
    var k := Pick(s.pending, FULL - m);
    if k < |s.pending| {
      RemoveMultiset(s.pending, k);
      CreditOne(s.log, Entry(Waited, s.pending[k]), inst);
    }
  }

  lemma InstallConserves(s: State, sig: Sig, a: Action, inst: Instance)
    ensures Missing(InstallAction(s, sig, a), inst) == Missing(s, inst)
  {
    FlushConserves(s.pending, sig, inst);
    CreditConcat(s.log, AllDiscarded(OnlySig(s.pending, sig)), inst);
  }

  lemma StepConserves(s: State, e: Event, inst: Instance)
    requires Enabled(s, e)
    ensures Missing(Next(s, e), inst) == Missing(s, inst)
  {
    match e
    case Send(x) => SendConserves(s, x, inst);
    case Deliver => DeliverConserves(s, inst);
    case WaitInfo(m) => WaitConserves(s, m, inst);
    case Install(sig, a) => InstallConserves(s, sig, a, inst);
    case _ => LocalStepShape(s, e);
  }

  /** Over any run, every instance that was sent has met exactly one fate or is still pending. */
  lemma {:induction false} EveryInstanceAccountedFor(abi: Abi, regs: Regs, es: seq<Event>, inst: Instance)
    requires Feasible(Fresh(abi, regs), es)
    ensures Missing(Exec(Fresh(abi, regs), es), inst) == 0
  {
    var s0 := Fresh(abi, regs);
    var inv := (s: State) => Missing(s, inst) == 0;
    forall t, e | inv(t) && Enabled(t, e) ensures inv(Next(t, e)) {
      StepConserves(t, e, inst);
    }
    RunInduction(s0, es, (_, _) => true, inv);
  }

  lemma {:induction false} DropSigOnly(q: seq<Instance>, sig: Sig, k: Sig)
    ensures OnlySig(DropSig(q, sig), k) == if k == sig then [] else OnlySig(q, k)
  {
    if q != [] {
      DropSigOnly(q[1..], sig, k);
      var head := if q[0].sig == sig then [] else [q[0]];
      OnlySigConcat(head, DropSig(q[1..], sig), k);
      assert OnlySig([q[0]], k) == if q[0].sig == k then [q[0]] else [];
    }
  }

  /** `sigaction` takes effect for its signal alone, except on KILL and STOP, where it fails and changes
      nothing. What is ignored from then on is no longer pending; all other queues stay as they were. */
  lemma InstallTakesEffect(s: State, sig: Sig, a: Action, k: Sig)
    requires Enabled(s, Install(sig, a))
    ensures var t := Next(s, Install(sig, a));
            if sig == SIGKILL || sig == SIGSTOP then t == s.(regs := s.regs.(rax := -EINVAL))
            else
              && t.regs.rax == 0 && t.mask == s.mask && t.frames == s.frames
              && (k != sig ==> ActionOf(t.actions, k) == ActionOf(s.actions, k))
              && (a.Handler? ==> ActionOf(t.actions, sig) == a.(saMask := a.saMask - {SIGKILL, SIGSTOP}))
              && (!a.Handler? ==> ActionOf(t.actions, sig) == a)
              && var flushed := k == sig && (a.Ignore? || (a.Default? && IgnoredByDefault(sig)));
                 OnlySig(t.pending, k) == if flushed then [] else OnlySig(s.pending, k)
  {
    DropSigOnly(s.pending, sig, k);
  }

  // ---------------------------------------------------------------- standard signals

  ghost predicate Coalescing(q: seq<Instance>) {
    forall i, j :: 0 <= i < j < |q| && q[i].sig == q[j].sig ==> Realtime(q[i].sig)
  }

  lemma {:induction false} DropSigKeeps(q: seq<Instance>, sig: Sig, x: Instance)
    ensures x in DropSig(q, sig) <==> x in q && x.sig != sig
  {
    if q != [] {
      assert q == [q[0]] + q[1..];
      DropSigKeeps(q[1..], sig, x);
    }
  }

  lemma {:induction false} DropSigCoalescing(q: seq<Instance>, sig: Sig)
    requires Coalescing(q)
    ensures Coalescing(DropSig(q, sig))
  {
    if q != [] {
      assert forall k :: 0 <= k < |q[1..]| ==> q[1..][k] == q[k + 1];
      DropSigCoalescing(q[1..], sig);
      var r := DropSig(q[1..], sig);
      forall k | 0 <= k < |r| && r[k].sig == q[0].sig ensures Realtime(q[0].sig) {
        DropSigKeeps(q[1..], sig, r[k]);
        var j :| 0 <= j < |q[1..]| && q[1..][j] == r[k];
        assert q[0].sig == q[j + 1].sig;
      }
    }
  }

  lemma RemoveCoalescing(q: seq<Instance>, i: nat)
    requires Coalescing(q) && i < |q|
    ensures Coalescing(Remove(q, i))
  {
    var r := Remove(q, i);
    assert forall k :: 0 <= k < |r| ==> r[k] == q[if k < i then k else k + 1];
  }

  lemma StepCoalesces(s: State, e: Event)
    requires Enabled(s, e) && Coalescing(s.pending)
    ensures Coalescing(Next(s, e).pending)
  {
    match e
    case Send(_) =>
    case Deliver =>
      var _, _ := DeliverShape(s);
      RemoveCoalescing(s.pending, Pick(s.pending, s.mask));
    case WaitInfo(m) =>
      var k := Pick(s.pending, FULL - m);
      if k < |s.pending| { RemoveCoalescing(s.pending, k); }
    case Install(sig, _) => DropSigCoalescing(s.pending, sig);
    case _ => LocalStepShape(s, e);
  }

  lemma {:induction false} CoalescingBoundsQueue(q: seq<Instance>, sig: Sig)
    requires Coalescing(q) && !Realtime(sig)
    ensures |OnlySig(q, sig)| <= 1
  {
    if q != [] {
      assert forall k :: 0 <= k < |q[1..]| ==> q[1..][k] == q[k + 1];
      CoalescingBoundsQueue(q[1..], sig);
      if q[0].sig == sig {
        OnlySigAbsent(q[1..], sig);
      }
    }
  }

  /** In any reachable state a standard signal has at most one instance pending, and the bit
      `sigpending` reports for a signal is set exactly when its own queue is not empty. */
  lemma {:induction false} PendingView(abi: Abi, regs: Regs, es: seq<Event>, sig: Sig)
    requires Feasible(Fresh(abi, regs), es)
    ensures var s := Exec(Fresh(abi, regs), es);
            && (!Realtime(sig) ==> |OnlySig(s.pending, sig)| <= 1)
            && (InUserMode(s) ==> (sig in PendingSet(s) <==> OnlySig(s.pending, sig) != []))
  {
    var inv := (s: State) => Coalescing(s.pending);
    forall t, e | inv(t) && Enabled(t, e) ensures inv(Next(t, e)) {
      StepCoalesces(t, e);
    }
    RunInduction(Fresh(abi, regs), es, (_, _) => true, inv);
    var s := Exec(Fresh(abi, regs), es);
    if !Realtime(sig) { CoalescingBoundsQueue(s.pending, sig); }
    if InUserMode(s) { PendingSetIsQueue(s, sig); }
  }

  // ---------------------------------------------------------------- KILL and STOP

  ghost predicate Unblockable(s: State) {
    && s.mask !! UNBLOCKABLE
    && (s.sleep.InSuspend? ==> s.sleep.orig !! UNBLOCKABLE)
    && (forall k :: k in UNBLOCKABLE ==> ActionOf(s.actions, k) == Default)
  }

  lemma StepKeepsUnblockable(s: State, e: Event)
    requires Enabled(s, e) && Unblockable(s)
    ensures Unblockable(Next(s, e))
  {
  }

  /** Nothing numbered below KILL stops a thread, so a KILL that is pending is reached. */
  lemma DeliverTowardsKill(s: State)
    requires Unblockable(s) && s.status.Alive? && IsPending(s.pending, SIGKILL)
    ensures CanDeliver(s)
    ensures var t := DeliverNext(s);
            t.status.Killed? || (t.status.Alive? && Unblockable(t) && IsPending(t.pending, SIGKILL))
  {
    var k :| 0 <= k < |s.pending| && s.pending[k].sig == SIGKILL;
    assert s.pending[k].sig !in s.mask;
    var x, f := DeliverShape(s);
    var i := Pick(s.pending, s.mask);
    StepKeepsUnblockable(s, Deliver);
    DeliverStatus(s);
    if x.sig != SIGKILL {
      assert Remove(s.pending, i)[if k < i then k else k - 1] == s.pending[k];
    }
  }

  lemma DeliverStatus(s: State)
    requires Unblockable(s) && CanDeliver(s)
    ensures var x := s.pending[Pick(s.pending, s.mask)];
            var t := DeliverNext(s);
            && (x.sig == SIGKILL ==> t.status.Killed?)
            && (x.sig < SIGKILL ==> t.status.Alive? || t.status.Killed?)
  {
  }

  lemma {:induction false} SettleTakesKill(s: State)
    requires Unblockable(s) && !s.status.Stopped? && IsPending(s.pending, SIGKILL)
    ensures Settle(s).status.Killed?
    decreases |s.pending|
  {
    if s.status.Alive? {
      DeliverTowardsKill(s);
      var t := DeliverNext(s);
      if t.status.Alive? {
        SettleTakesKill(t);
      }
    }
  }

  lemma KillIsFatal(s: State, value: int)
    requires Unblockable(s)
    ensures Settle(SendTo(s, Instance(SIGKILL, value))).status.Killed?
  {
    var t := SendTo(s, Instance(SIGKILL, value));
    assert ActionOf(s.actions, SIGKILL) == Default;
    assert Unblockable(t);
    if !IsPending(s.pending, SIGKILL) {
      assert t.pending[|s.pending|].sig == SIGKILL;
    }
    SettleTakesKill(t);
  }

  /** No run ever gets KILL or STOP into the live mask, or KILL away from its default action:
      whatever came before, once a KILL is sent the thread dies before its next instruction. */
  lemma {:induction false} KillAndStopCannotBeHeldOff(abi: Abi, regs: Regs, es: seq<Event>, value: int)
    requires Feasible(Fresh(abi, regs), es)
    ensures var s := Exec(Fresh(abi, regs), es);
            && Home(s) !! UNBLOCKABLE && s.mask !! UNBLOCKABLE
            && Settle(SendTo(s, Instance(SIGKILL, value))).status.Killed?
  {
    forall t, e | Unblockable(t) && Enabled(t, e) ensures Unblockable(Next(t, e)) {
      StepKeepsUnblockable(t, e);
    }
    RunInduction(Fresh(abi, regs), es, (_, _) => true, Unblockable);
    KillIsFatal(Exec(Fresh(abi, regs), es), value);
  }

  // ---------------------------------------------------------------- one-shot handlers

  function HandledCount(log: seq<Entry>, sig: Sig): nat {
    if log == [] then 0
    else
      var e := log[|log| - 1];
      HandledCount(log[..|log| - 1], sig) + (if e.fate == Handled && e.inst.sig == sig then 1 else 0)
  }

  lemma {:induction false} HandledCountConcat(a: seq<Entry>, b: seq<Entry>, sig: Sig)
    ensures HandledCount(a + b, sig) == HandledCount(a, sig) + HandledCount(b, sig)
  {
    if b == [] {
      assert a + b == a;
    } else {
      assert (a + b)[..|a + b| - 1] == a + b[..|b| - 1];
      HandledCountConcat(a, b[..|b| - 1], sig);
    }
  }

  lemma HandledCountOne(log: seq<Entry>, e: Entry, sig: Sig)
    ensures HandledCount(log + [e], sig) ==
            HandledCount(log, sig) + (if e.fate == Handled && e.inst.sig == sig then 1 else 0)
  {
    assert (log + [e])[..|log|] == log;
  }

  lemma {:induction false} DiscardsAreNotHandled(q: seq<Instance>, sig: Sig)
    ensures HandledCount(AllDiscarded(q), sig) == 0
  {
    if q != [] {
      DiscardsAreNotHandled(q[1..], sig);
      HandledCountConcat([Entry(Discarded, q[0])], AllDiscarded(q[1..]), sig);
    }
  }

  predicate NoInstall(sig: Sig, e: Event) {
    e.Install? ==> e.sig != sig
  }

  /** At most one handler entry since there were `n`; after it the action is the default again. */
  predicate OneShot(s: State, sig: Sig, n: nat) {
    var a := ActionOf(s.actions, sig);
    || (HandledCount(s.log, sig) == n && a.Handler? && a.resetHand)
    || (HandledCount(s.log, sig) == n + 1 && a.Default?)
  }

  lemma DeliverOneShot(s: State, sig: Sig, n: nat)
    requires CanDeliver(s) && OneShot(s, sig, n)
    ensures OneShot(DeliverNext(s), sig, n)
  {
    var x, f := DeliverShape(s);
    HandledCountOne(s.log, Entry(f, x), sig);
  }

  lemma SendOneShot(s: State, x: Instance, sig: Sig, n: nat)
    requires OneShot(s, sig, n)
    ensures OneShot(SendTo(s, x), sig, n)
  {
    HandledCountOne(s.log, Entry(Sent, x), sig);
    HandledCountOne(s.log + [Entry(Sent, x)], Entry(Discarded, x), sig);
    HandledCountOne(s.log + [Entry(Sent, x)], Entry(Coalesced, x), sig);
  }

  lemma WaitOneShot(s: State, m: set<Sig>, sig: Sig, n: nat)
    requires OneShot(s, sig, n)
    ensures OneShot(WaitFor(s, m), sig, n)
  {
    var k := Pick(s.pending, FULL - m);
    if k < |s.pending| { HandledCountOne(s.log, Entry(Waited, s.pending[k]), sig); }
  }

  lemma InstallOneShot(s: State, other: Sig, a: Action, sig: Sig, n: nat)
    requires OneShot(s, sig, n) && other != sig
    ensures OneShot(InstallAction(s, other, a), sig, n)
  {
    DiscardsAreNotHandled(OnlySig(s.pending, other), sig);
    HandledCountConcat(s.log, AllDiscarded(OnlySig(s.pending, other)), sig);
  }

  lemma StepOneShot(s: State, e: Event, sig: Sig, n: nat)
    requires Enabled(s, e) && NoInstall(sig, e) && OneShot(s, sig, n)
    ensures OneShot(Next(s, e), sig, n)
  {
    match e
    case Send(x) => SendOneShot(s, x, sig, n);
    case Deliver => DeliverOneShot(s, sig, n);
    case WaitInfo(m) => WaitOneShot(s, m, sig, n);
    case Install(other, a) => InstallOneShot(s, other, a, sig, n);
    case _ => LocalStepShape(s, e);
  }

  /** A one-shot disposition runs its handler at most once per installation, and is the
      default action again exactly when it has run. */
  lemma {:induction false} ResetHandRunsOnce(s: State, es: seq<Event>, sig: Sig)
    requires ActionOf(s.actions, sig).Handler? && ActionOf(s.actions, sig).resetHand
    requires Throughout(s, es, (_, e) => NoInstall(sig, e))
    ensures Feasible(s, es)
    ensures var t := Exec(s, es);
            var runs := HandledCount(t.log, sig) - HandledCount(s.log, sig);
            && 0 <= runs <= 1
            && (runs == 1 <==> ActionOf(t.actions, sig) == Default)
  {
    var n := HandledCount(s.log, sig);
    var ok := (_: State, e: Event) => NoInstall(sig, e);
    var inv := (t: State) => OneShot(t, sig, n);
    forall t, e | inv(t) && Enabled(t, e) && ok(t, e) ensures inv(Next(t, e)) {
      StepOneShot(t, e, sig, n);
    }
    assert Throughout(s, es, ok);
    RunInduction(s, es, ok, inv);
  }
}
