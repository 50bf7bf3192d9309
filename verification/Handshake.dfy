/** The handshake of `sigqueueinfo` and `sigsuspend-pc-rax` in every interleaving of sender and
    receiver: block, create the sender, suspend. Next to it the racy `pause-pc-rax`. */
module Handshake {
  import opened Signals
  import opened Queue
  import opened Machine
  import opened UserCalls

  /** `Suspending` blocks everything before the sender exists and then calls `sigsuspend` with only
      the signal let through; `Pausing` blocks nothing and calls `pause`. */
  datatype Kind = Suspending | Pausing

  datatype Pc = Started | Ready | Called | Done | Exited

  /** The receiver and its program, and what the sender has done. `strict` says that the handler makes
      the program's assertions; a failed assertion ends the receiver. `early` remembers that the signal
      was sent before the receiver made its call. */
  datatype Conf = Conf(
    kind: Kind,
    x: Instance,
    act: Action,
    callSite: int,
    strict: bool,
    sent: bool,
    early: bool,
    rcv: State,
    pc: Pc,
    handled: nat,
    failed: bool)

  datatype Move = Sends | Installs | Calls | Delivers | Handles | Finishes

  predicate CanMove(c: Conf, m: Move) {
    match m
    case Sends => !c.sent
    case Installs => c.pc.Started? && InUserMode(c.rcv) && c.rcv.frames == []
    case Calls => c.pc.Ready? && InUserMode(c.rcv) && c.rcv.frames == []
    case Delivers => !c.pc.Exited? && CanDeliver(c.rcv)
    case Handles => !c.pc.Exited? && InUserMode(c.rcv) && c.rcv.frames != []
    case Finishes => c.pc.Called? && InUserMode(c.rcv) && c.rcv.frames == []
  }

  /** The mask the receiver sleeps under. */
  function SleepMask(c: Conf): set<Sig> {
    if c.kind.Suspending? then FULL - {c.x.sig} else c.rcv.mask
  }

  function Call(c: Conf): State {
    EnterSuspend(c.rcv.(regs := c.rcv.regs.(pc := c.callSite)), SleepMask(c))
  }

  /** What the handler asserts of its signal and of the context it interrupted. */
  predicate HandlerOk(c: Conf, f: Frame) {
    f.inst == c.x && LooksInterrupted(c, f.regs)
  }

  predicate LooksInterrupted(c: Conf, r: Regs) {
    r.rax == -EINTR && r.pc - SYSCALL_LENGTH == c.callSite
  }

  function Moved(c: Conf, m: Move): Conf
    requires CanMove(c, m)
  {
    match m
    case Sends => c.(sent := true, early := !c.pc.Called?, rcv := SendTo(c.rcv, c.x))
    case Installs => c.(rcv := InstallAction(c.rcv, c.x.sig, c.act), pc := Ready)
    case Calls => c.(rcv := Call(c), pc := Called)
    case Delivers => c.(rcv := DeliverNext(c.rcv))
    case Handles =>
      if c.strict && !HandlerOk(c, TopFrame(c.rcv)) then c.(handled := c.handled + 1, failed := true, pc := Exited)
      else c.(rcv := ReturnFrom(c.rcv), handled := c.handled + 1)
    case Finishes => if c.rcv.regs.rax != -EINTR then c.(failed := true, pc := Exited) else c.(pc := Done)
  }

  ghost predicate IsRun(run: seq<Conf>, moves: seq<Move>) {
    && |run| == |moves| + 1
    && forall i :: 0 <= i < |moves| ==> CanMove(run[i], moves[i]) && run[i + 1] == Moved(run[i], moves[i])
  }

  /** The receiver is asleep, the signal was sent, and nothing will ever wake it. */
  predicate Lost(c: Conf) {
    c.rcv.sleep.InSuspend? && c.sent && !CanDeliver(c.rcv)
  }

  // ---------------------------------------------------------------- the programs' beginnings

  /** `sigqueueinfo` at its `fork`: everything is blocked. */
  function AtFork(abi: Abi, regs: Regs, x: Instance, act: Action, callSite: int, strict: bool): Conf {
    Conf(Suspending, x, act, callSite, strict, false, false, BlockMore(Fresh(abi, regs), FULL), Started, 0, false)
  }

  /** `sigsuspend-pc-rax` when it creates its thread: the handler is installed, everything is blocked. */
  function AtCreate(abi: Abi, regs: Regs, x: Instance, act: Action, callSite: int, strict: bool): Conf {
    var k := BlockMore(InstallAction(Fresh(abi, regs), x.sig, act), FULL);
    Conf(Suspending, x, act, callSite, strict, false, false, k, Ready, 0, false)
  }

  /** `pause-pc-rax` when it creates its thread: the handler is installed. */
  function AtCreateOpen(abi: Abi, regs: Regs, x: Instance, act: Action, callSite: int, strict: bool): Conf {
    var k := InstallAction(Fresh(abi, regs), x.sig, act);
    Conf(Pausing, x, act, callSite, strict, false, false, k, Ready, 0, false)
  }

  /** The programs begin as the results below require. The code that `pause-pc-rax` is in then does not
      look like an interrupted call, so its handler's assertions would fail there. */
  lemma Beginnings(abi: Abi, regs: Regs, x: Instance, act: Action, callSite: int, strict: bool)
    requires Catchable(x, act)
    ensures StartsBlocked(AtFork(abi, regs, x, act, callSite, strict))
    ensures StartsBlocked(AtCreate(abi, regs, x, act, callSite, strict))
    ensures StartsOpen(AtCreateOpen(abi, regs, x, act, callSite, strict))
    ensures Trips(AtCreateOpen(abi, regs, x, act, callSite, strict)) <==> strict
  {
    assert Filter(act.saMask) == act.saMask;
  }

  // ---------------------------------------------------------------- one instance at a time

  function Arrived(c: Conf): seq<Instance> {
    if c.sent then [c.x] else []
  }

  // ---------------------------------------------------------------- suspending

  /** `act` is a handler that catches the signal more than once, and the signal can be blocked. */
  predicate Catchable(x: Instance, act: Action) {
    x.sig !in UNBLOCKABLE && act.Handler? && !act.resetHand && act.saMask !! UNBLOCKABLE
  }

  predicate StartsBlocked(c: Conf) {
    && c.kind.Suspending? && Catchable(c.x, c.act) && !c.sent && !c.early && !c.failed && c.handled == 0
    && (c.pc.Started? || (c.pc.Ready? && ActionOf(c.rcv.actions, c.x.sig) == c.act))
    && InUserMode(c.rcv) && c.rcv.mask == Filter(FULL) && c.rcv.pending == [] && c.rcv.frames == []
  }

  predicate Quiet(s: State) {
    s.status.Alive? && s.sleep.Awake? && s.frames == [] && s.mask == Filter(FULL)
  }

  predicate NoneLost(c: Conf) {
    && c.kind.Suspending? && Catchable(c.x, c.act) && !c.failed
    && (!c.pc.Started? ==> ActionOf(c.rcv.actions, c.x.sig) == c.act)
    && match c.pc
       case Started => Quiet(c.rcv) && c.rcv.pending == Arrived(c) && c.handled == 0
       case Ready => Quiet(c.rcv) && c.rcv.pending == Arrived(c) && c.handled == 0
       case Called =>
         && c.rcv.status.Alive?
         && (if c.rcv.sleep.InSuspend? then
               && c.rcv.sleep.orig == Filter(FULL) && c.rcv.mask == Filter(FULL - {c.x.sig})
               && c.rcv.regs.pc == c.callSite + SYSCALL_LENGTH
               && c.rcv.pending == Arrived(c) && c.rcv.frames == [] && c.handled == 0
             else if c.rcv.frames == [] then
               Quiet(c.rcv) && c.rcv.pending == [] && c.rcv.regs.rax == -EINTR && c.sent && c.handled == 1
             else
               && InUserMode(c.rcv) && |c.rcv.frames| == 1 && c.rcv.pending == [] && c.sent && c.handled == 0
               && c.rcv.frames[0].mask == Filter(FULL) && HandlerOk(c, c.rcv.frames[0]))
       case Done => Quiet(c.rcv) && c.rcv.pending == [] && c.rcv.regs.rax == -EINTR && c.sent && c.handled == 1
       case Exited => false
  }

  lemma BlockedIsQuiet(s: State)
    requires Quiet(s) && forall i :: 0 <= i < |s.pending| ==> s.pending[i].sig !in UNBLOCKABLE
    ensures InUserMode(s)
  {
  }

  lemma NoneLostInstalls(c: Conf)
    requires NoneLost(c) && CanMove(c, Installs)
    ensures NoneLost(Moved(c, Installs))
  {
    assert Filter(c.act.saMask) == c.act.saMask;
  }

  lemma NoneLostDelivers(c: Conf)
    requires NoneLost(c) && CanMove(c, Delivers)
    ensures NoneLost(Moved(c, Delivers))
  {
    if c.rcv.pending != [] {
      DeliverOnly(c.rcv, c.x);
    }
  }

  lemma NoneLostStep(c: Conf, m: Move)
    requires NoneLost(c) && CanMove(c, m)
    ensures NoneLost(Moved(c, m))
  {
    match m
    case Sends => SendOnly(c.rcv, c.x);
    case Installs => NoneLostInstalls(c);
    case Calls =>
    case Delivers => NoneLostDelivers(c);
    case Handles =>
    case Finishes =>
  }

  /** Moves left until the receiver is done. */
  function Remaining(c: Conf): nat {
    (if c.sent then 0 else 2) + (if c.handled == 0 then 1 else 0) + |c.rcv.pending|
    + (match c.pc case Started => 3 case Ready => 2 case Called => 1 case _ => 0)
  }

  lemma NeverStuck(c: Conf)
    requires NoneLost(c) && !c.pc.Done?
    ensures exists m :: CanMove(c, m)
  {
    if !c.sent {
      assert CanMove(c, Sends);
    } else if c.pc.Started? {
      BlockedIsQuiet(c.rcv);
      assert CanMove(c, Installs);
    } else if c.pc.Ready? {
      BlockedIsQuiet(c.rcv);
      assert CanMove(c, Calls);
    } else if c.rcv.sleep.InSuspend? {
      DeliverOnly(c.rcv, c.x);
      assert CanMove(c, Delivers);
    } else if c.rcv.frames != [] {
      assert CanMove(c, Handles);
    } else {
      BlockedIsQuiet(c.rcv);
      assert CanMove(c, Finishes);
    }
  }

  lemma EveryMoveCounts(c: Conf, m: Move)
    requires NoneLost(c) && CanMove(c, m)
    ensures Remaining(Moved(c, m)) < Remaining(c)
  {
    match m
    case Sends => SendOnly(c.rcv, c.x);
    case Delivers => NoneLostDelivers(c); var _, _ := DeliverShape(c.rcv);
    case Installs => NoneLostInstalls(c);
    case _ =>
  }

  /** In every interleaving, wherever the send falls: no assertion fails, a receiver that sleeps
      after the send is about to be woken, the handler runs at most once and exactly once by the
      end, some move is always possible before the end, and no run has more than six moves. */
  lemma {:induction false} BlockBeforeCreateLosesNothing(run: seq<Conf>, moves: seq<Move>, i: nat)
    requires IsRun(run, moves) && StartsBlocked(run[0]) && i < |run|
    ensures NoneLost(run[i]) && !run[i].failed && !Lost(run[i])
    ensures run[i].handled <= 1 && (run[i].pc.Done? ==> run[i].handled == 1)
    ensures !run[i].pc.Done? ==> exists m :: CanMove(run[i], m)
    ensures i + Remaining(run[i]) <= 6
  {
    if i == 0 {
      StartsUnlost(run[0]);
    } else {
      BlockBeforeCreateLosesNothing(run, moves, i - 1);
      NoneLostStep(run[i - 1], moves[i - 1]);
      EveryMoveCounts(run[i - 1], moves[i - 1]);
    }
    NoneLostMeans(run[i]);
  }

  lemma StartsUnlost(c: Conf)
    requires StartsBlocked(c)
    ensures NoneLost(c) && Remaining(c) <= 6
  {
  }

  lemma NoneLostMeans(c: Conf)
    requires NoneLost(c)
    ensures !c.failed && !Lost(c) && c.handled <= 1 && (c.pc.Done? ==> c.handled == 1)
    ensures !c.pc.Done? ==> exists m :: CanMove(c, m)
  {
    if Lost(c) {
      DeliverOnly(c.rcv, c.x);
    }
    if !c.pc.Done? {
      NeverStuck(c);
    }
  }

  // ---------------------------------------------------------------- pausing

  predicate StartsOpen(c: Conf) {
    && c.kind.Pausing? && Catchable(c.x, c.act) && !c.sent && !c.early && !c.failed && c.handled == 0
    && c.pc.Ready? && ActionOf(c.rcv.actions, c.x.sig) == c.act
    && InUserMode(c.rcv) && c.rcv.mask == {} && c.rcv.pending == [] && c.rcv.frames == []
  }

  /** The handler's assertions would fail in the code the receiver starts in, outside its call. */
  predicate Trips(c: Conf) {
    c.strict && !LooksInterrupted(c, c.rcv.regs)
  }

  predicate Idling(s: State) {
    s.status.Alive? && s.sleep.Awake? && s.frames == [] && s.mask == {}
  }

  predicate Asleep(s: State) {
    s.status.Alive? && s.sleep == InSuspend({}) && s.frames == [] && s.mask == {}
  }

  /** In the handler, entered from a context with registers `r`. */
  predicate Handling(c: Conf, r: Regs) {
    && InUserMode(c.rcv) && |c.rcv.frames| == 1 && c.rcv.pending == []
    && c.rcv.frames[0].mask == {} && c.rcv.frames[0].inst == c.x && c.rcv.frames[0].regs == r
  }

  /** Before the call. */
  predicate BeforeCall(c: Conf, c0: Conf) {
    && c.early == c.sent
    && if !c.sent then Idling(c.rcv) && c.rcv.pending == [] && c.handled == 0 && c.rcv.regs == c0.rcv.regs
       else if c.handled == 0 then
         || (Idling(c.rcv) && c.rcv.pending == [c.x] && c.rcv.regs == c0.rcv.regs)
         || Handling(c, c0.rcv.regs)
       else Idling(c.rcv) && c.rcv.pending == [] && c.handled == 1 && !Trips(c0)
  }

  /** In the call, or back from it. */
  predicate InPause(c: Conf, c0: Conf) {
    if c.early then Asleep(c.rcv) && c.rcv.pending == [] && c.sent && c.handled == 1 && !Trips(c0)
    else if c.handled == 0 then
      || (Asleep(c.rcv) && c.rcv.pending == Arrived(c) && c.rcv.regs.pc == c.callSite + SYSCALL_LENGTH)
      || (c.sent && c.rcv.frames != [] && LooksInterrupted(c, c.rcv.frames[0].regs)
          && Handling(c, c.rcv.frames[0].regs))
    else Idling(c.rcv) && c.rcv.pending == [] && c.sent && c.handled == 1 && c.rcv.regs.rax == -EINTR
  }

  /** Where a `pause` run that starts at `c0` can be. */
  predicate PauseInv(c: Conf, c0: Conf) {
    && c.kind.Pausing? && Catchable(c.x, c.act) && ActionOf(c.rcv.actions, c.x.sig) == c.act
    && c.callSite == c0.callSite && c.strict == c0.strict
    && (c.failed <==> c.pc.Exited?)
    && match c.pc
       case Started => false
       case Ready => BeforeCall(c, c0)
       case Called => InPause(c, c0)
       case Done => !c.early && c.sent && c.handled == 1 && Idling(c.rcv) && c.rcv.pending == []
       case Exited => c.early && c.sent && c.handled == 1 && Handling(c, c0.rcv.regs) && Trips(c0)
  }

  lemma PauseDelivers(c: Conf, c0: Conf)
    requires PauseInv(c, c0) && CanMove(c, Delivers)
    ensures PauseInv(Moved(c, Delivers), c0)
  {
    if c.rcv.pending != [] {
      DeliverOnly(c.rcv, c.x);
    }
  }

  lemma PauseStep(c: Conf, m: Move, c0: Conf)
    requires PauseInv(c, c0) && CanMove(c, m)
    ensures PauseInv(Moved(c, m), c0)
  {
    match m
    case Sends => SendOnly(c.rcv, c.x);
    case Installs =>
    case Calls => if c.rcv.pending != [] { DeliverOnly(c.rcv, c.x); }
    case Delivers => PauseDelivers(c, c0);
    case Handles => assert Filter({}) == {};
    case Finishes => if c.rcv.pending != [] { DeliverOnly(c.rcv, c.x); }
  }

  /** What becomes of a `pause` run. */
  predicate PauseOutcome(c: Conf, c0: Conf) {
    && (c.sent && c.rcv.sleep.InSuspend? ==> (Lost(c) <==> c.early))
    && (c.handled > 0 ==> (c.failed <==> c.early && Trips(c0)))
    && (Lost(c) ==> !Trips(c0))
    && (c.pc.Done? ==> !c.early && !c.failed)
  }

  lemma PauseMeans(c: Conf, c0: Conf)
    requires PauseInv(c, c0)
    ensures PauseOutcome(c, c0)
  {
    if c.rcv.pending == [] {
      assert !Eligible(c.rcv.pending, c.rcv.mask);
    } else {
      DeliverOnly(c.rcv, c.x);
    }
  }

  /** With `pause` the signal must not come before the call. If it does, the handler runs in ordinary
      code: its assertions fail there and end the program, or, if it makes none that do, the receiver
      goes to sleep and is never woken. A receiver asleep after the send is lost if and only if the send
      was early, and a run that reaches its end was not early. */
  lemma {:induction false} PauseLosesEarlySignals(run: seq<Conf>, moves: seq<Move>, i: nat)
    requires IsRun(run, moves) && StartsOpen(run[0]) && i < |run|
    ensures PauseInv(run[i], run[0])
    ensures PauseOutcome(run[i], run[0])
  {
    if i > 0 {
      PauseLosesEarlySignals(run, moves, i - 1);
      PauseStep(run[i - 1], moves[i - 1], run[0]);
    }
    PauseMeans(run[i], run[0]);
  }

  /** Where a run stops: at its end if the signal was not early, else in a failed assertion or asleep
      for ever, according to the handler. */
  lemma PauseStops(run: seq<Conf>, moves: seq<Move>, i: nat)
    requires IsRun(run, moves) && StartsOpen(run[0]) && i < |run|
    requires forall m :: !CanMove(run[i], m)
    ensures var c := run[i];
            if !c.early then c.pc.Done? && !c.failed && c.handled == 1
            else if Trips(run[0]) then c.pc.Exited? && c.failed
            else Lost(c)
  {
    PauseLosesEarlySignals(run, moves, i);
    var c := run[i];
    assert !CanMove(c, Sends) && !CanMove(c, Calls) && !CanMove(c, Delivers);
    assert !CanMove(c, Handles) && !CanMove(c, Finishes);
    if c.rcv.pending == [] {
      assert !Eligible(c.rcv.pending, c.rcv.mask);
    } else {
      DeliverOnly(c.rcv, c.x);
    }
  }

  /** Sent and delivered before the call. */
  lemma EarlyEntry(c: Conf) returns (run: seq<Conf>, moves: seq<Move>, c2: Conf)
    requires StartsOpen(c)
    ensures IsRun(run, moves) && |run| == 3 && run[0] == c && run[2] == c2
    ensures PauseInv(c2, c) && CanMove(c2, Handles) && c2.pc.Ready? && Handling(c2, c.rcv.regs)
    ensures c2.handled == 0 && c2.early && c2.sent
  {
    SendOnly(c.rcv, c.x);
    var c1 := Moved(c, Sends);
    DeliverOnly(c1.rcv, c.x);
    c2 := Moved(c1, Delivers);
    RunSnoc([c], [], Sends);
    RunSnoc([c] + [c1], [] + [Sends], Delivers);
    run, moves := [c] + [c1] + [c2], [] + [Sends] + [Delivers];
  }

  /** The handler returns and the receiver makes its call. */
  lemma EarlyCall(c2: Conf, c: Conf) returns (c3: Conf, c4: Conf)
    requires StartsOpen(c) && !Trips(c) && PauseInv(c2, c) && c2.pc.Ready? && c2.sent && c2.handled == 0
    requires CanMove(c2, Handles) && Handling(c2, c.rcv.regs)
    ensures c3 == Moved(c2, Handles) && CanMove(c3, Calls) && c4 == Moved(c3, Calls)
    ensures PauseInv(c4, c) && c4.pc.Called? && c4.early && c4.sent && c4.handled == 1
  {
    PauseStep(c2, Handles, c);
    c3 := Moved(c2, Handles);
    assert !Eligible(c3.rcv.pending, c3.rcv.mask);
    PauseStep(c3, Calls, c);
    c4 := Moved(c3, Calls);
  }

  lemma RunSnoc(run: seq<Conf>, moves: seq<Move>, m: Move)
    requires IsRun(run, moves) && CanMove(run[|moves|], m)
    ensures IsRun(run + [Moved(run[|moves|], m)], moves + [m])
  {
  }

  lemma HungForEver(c: Conf, c0: Conf)
    requires PauseInv(c, c0) && c.pc.Called? && c.early && c.sent
    ensures Lost(c) && !c.failed && forall m :: !CanMove(c, m)
  {
    assert !Eligible(c.rcv.pending, c.rcv.mask);
  }

  /** The run that hangs, for a handler that asserts nothing, or nothing that fails in ordinary code:
      send, deliver, handle, and only then `pause`; nothing can move any more. */
  lemma PauseCanHang(c: Conf) returns (run: seq<Conf>, moves: seq<Move>)
    requires StartsOpen(c) && !Trips(c)
    ensures IsRun(run, moves) && run[0] == c && |run| == 5
    ensures Lost(run[4]) && run[4].handled == 1 && run[4].pc.Called? && !run[4].failed
    ensures forall m :: !CanMove(run[4], m)
  {
    var run2, moves2, c2 := EarlyEntry(c);
    var c3, c4 := EarlyCall(c2, c);
    RunSnoc(run2, moves2, Handles);
    RunSnoc(run2 + [c3], moves2 + [Handles], Calls);
    run, moves := run2 + [c3] + [c4], moves2 + [Handles] + [Calls];
    HungForEver(c4, c);
  }

  /** The run that fails, for the program's own handler: send, deliver, handle. */
  lemma PauseCanFail(c: Conf) returns (run: seq<Conf>, moves: seq<Move>)
    requires StartsOpen(c) && Trips(c)
    ensures IsRun(run, moves) && run[0] == c && |run| == 4
    ensures run[3].failed && run[3].pc.Exited? && forall m :: !CanMove(run[3], m)
  {
    var run2, moves2, c2 := EarlyEntry(c);
    PauseStep(c2, Handles, c);
    RunSnoc(run2, moves2, Handles);
    run, moves := run2 + [Moved(c2, Handles)], moves2 + [Handles];
  }
}
