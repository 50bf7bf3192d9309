/** `sigdfl-all`: the default action of every signal but KILL, observed by a waiting parent. */
module Defaults {
  import opened Signals
  import opened Queue
  import opened Machine
  import opened UserCalls

  datatype Behavior = Ignored | Stops | Cores | Terminates | What

  /** The program's own table; `What` is the arm no signal number should reach. */
  function GetBehavior(s: Sig): Behavior {
    if s in {1, 14, 2, 29, 13, 27, 30, 16, 15, 10, 12, 26} || 32 <= s then Terminates
    else if s in {6, 7, 8, 4, 3, 11, 31, 5, 24, 25} then Cores
    else if s in {18, 23, 28, 17} then Ignored
    else if s in {20, 21, 22, 19} then Stops
    else What
  }

  /** What `waitpid` reports about the child. */
  datatype WaitStatus = Exited(code: int) | Signaled(sig: Sig) | StoppedBy(sig: Sig)

  function Report(s: State): WaitStatus {
    match s.status
    case Alive => Exited(42)
    case Killed(sig) => Signaled(sig)
    case Stopped(sig) => StoppedBy(sig)
  }

  /** A child that installs the default disposition of signal `i`, where the kernel lets it, and
      sends itself that signal. */
  function Child(abi: Abi, regs: Regs, i: Sig): State {
    Settle(SendTo(Defaulted(abi, regs, i), Instance(i, 0)))
  }

  function Defaulted(abi: Abi, regs: Regs, i: Sig): State {
    var s := Fresh(abi, regs);
    if i == SIGSTOP then s else InstallAction(s, i, Default)
  }

  /** What the table says a parent will be told. */
  function Foretold(i: Sig): WaitStatus {
    match GetBehavior(i)
    case Ignored => Exited(42)
    case Stops => StoppedBy(i)
    case _ => Signaled(i)
  }

  lemma DefaultedFacts(abi: Abi, regs: Regs, i: Sig)
    ensures var s := Defaulted(abi, regs, i);
            && s.status.Alive? && s.sleep.Awake? && s.pending == [] && s.frames == [] && s.mask == {}
            && (forall k: Sig :: ActionOf(s.actions, k) == Default)
            && (i !in UNBLOCKABLE ==> s.regs.rax == 0)
  {
  }

  /** The program's table agrees with the kernel on every signal but KILL, which it leaves out. */
  lemma TableMatchesKernel(i: Sig)
    ensures GetBehavior(i) == What <==> i == SIGKILL
    ensures GetBehavior(i) == Ignored <==> IgnoredByDefault(i)
    ensures GetBehavior(i) == Stops <==> StopsByDefault(i)
  {
  }

  lemma ChildFate(abi: Abi, regs: Regs, i: Sig)
    ensures var s := Child(abi, regs, i);
            && s.pending == [] && s.frames == [] && s.mask == {}
            && (forall k: Sig :: ActionOf(s.actions, k) == Default)
            && (i !in UNBLOCKABLE ==> s.regs.rax == 0)
            && Report(s) == Foretold(i)
  {
    DefaultedFacts(abi, regs, i);
    SelfSend(Defaulted(abi, regs, i), i);
  }

  lemma SelfSend(s: State, i: Sig)
    requires s.status.Alive? && s.sleep.Awake? && s.pending == [] && s.frames == [] && s.mask == {}
    requires forall k: Sig :: ActionOf(s.actions, k) == Default
    ensures var t := Settle(SendTo(s, Instance(i, 0)));
            && t.pending == [] && t.frames == [] && t.mask == {} && t.actions == s.actions && t.regs == s.regs
            && Report(t) == Foretold(i)
  {
    var x := Instance(i, 0);
    var t := SendTo(s, x);
    TableMatchesKernel(i);
    if IgnoredByDefault(i) {
      SettleQuiet(t);
    } else {
      assert s.pending + [x] == [x];
      DefaultDelivery(t, x);
      SettleStep(t);
      SettleQuiet(DeliverNext(t));
    }
  }

  lemma DefaultDelivery(t: State, x: Instance)
    requires t.status.Alive? && t.pending == [x] && t.mask == {} && ActionOf(t.actions, x.sig) == Default
    requires !IgnoredByDefault(x.sig)
    ensures CanDeliver(t)
    ensures var u := DeliverNext(t);
            && u == t.(status := u.status, pending := [], log := u.log) && !CanDeliver(u)
            && u.status == (if StopsByDefault(x.sig) then Stopped(x.sig) else Killed(x.sig))
  {
    assert t.pending[0] == x;
    assert Remove(t.pending, 0) == [];
  }

  /** One turn of the parent's loop. */
  method ChecksOut(abi: Abi, regs: Regs, i: Sig) returns (ok: bool, status: WaitStatus)
    requires i != SIGKILL
    ensures ok && status == Foretold(i)
  {
    TableMatchesKernel(i);
    ChildFate(abi, regs, i);
    var child := Child(abi, regs, i);
    status := Report(child);
    match GetBehavior(i) {
      case Terminates => ok := status == Signaled(i);
      case Cores => ok := status == Signaled(i);
      case Stops =>
        ContinuedChild(child, i);
        ok := status == StoppedBy(i) && Report(Settle(SendTo(child, Instance(SIGCONT, 0)))) == Exited(42);
      case Ignored => ok := status == Exited(42);
      case What => ok := false;
    }
  }

  /** The parent's loop returns 0: each of the 64 signals is in the table, and each child ends, stops
      or lives on as the table says; a stopped child lives on after CONT. */
  method Drive(abi: Abi, regs: Regs) returns (r: int, seen: map<Sig, WaitStatus>)
    ensures r == 0 && seen.Keys == FULL - {SIGKILL}
    ensures forall i :: i in seen ==> seen[i] == Foretold(i)
  {
    r, seen := 0, map[];
    for i: int := 1 to 65
      invariant r == 0 && forall k :: k in seen ==> seen[k] == Foretold(k)
      invariant forall k: Sig :: k in seen <==> k < i && k != SIGKILL
    {
      if i != SIGKILL {
        var ok, status := ChecksOut(abi, regs, i);
        seen := seen[i := status];
        if !ok { r := 1; }
      }
    }
  }

  lemma ContinuedChild(s: State, i: Sig)
    requires s.status == Stopped(i) && s.pending == [] && s.mask == {}
    requires forall k: Sig :: ActionOf(s.actions, k) == Default
    ensures Report(Settle(SendTo(s, Instance(SIGCONT, 0)))) == Exited(42)
  {
    var t := SendTo(s, Instance(SIGCONT, 0));
    assert t.pending == [];
    SettleQuiet(t);
  }
}
