/** The signal-delivery state machine of one thread: what the kernel keeps for it, every step
    the kernel, the thread or a sender can take, and runs of such steps. */
module Machine {
  import opened Signals
  import opened Queue

  // ---------------------------------------------------------------- data

  /** What `sigaction` installs for a signal. `code` is the handler's address. */
  datatype Action =
    | Default
    | Ignore
    | Handler(code: int, saMask: set<Sig>, onStack: bool, noDefer: bool, resetHand: bool, restart: bool)

  datatype Regs = Regs(sp: int, pc: int, rax: int)

  /** `stack_t`, as a program passes it to `sigaltstack` and finds it in `uc_stack`. */
  datatype StackT = StackT(sp: int, size: nat, flags: nat)

  /** The alternate stack the kernel holds for the thread. */
  datatype Alt = Off | On(sp: int, size: nat, autodisarm: bool)

  /** A live signal frame: the saved context, and the addresses `[entry, top)` it was carved from. */
  datatype Frame = Frame(inst: Instance, mask: set<Sig>, alt: StackT, regs: Regs, entry: int, top: int)

  /** Asleep in `sigsuspend` with the caller's own mask put aside, or in call number `nr`.
      While asleep, `regs.pc` is already past the system call instruction. */
  datatype Sleep = Awake | InSuspend(orig: set<Sig>) | InCall(nr: int)

  datatype Status = Alive | Killed(cause: Sig) | Stopped(cause: Sig)

  /** The two targets the programs are built for; `frame` is the size of a signal frame. */
  datatype Abi = Abi64(frame: nat) | Abi32(frame: nat)

  /** What became of an instance. */
  datatype Fate = Sent | Coalesced | Discarded | Handled | Waited | Fatal | Stopping

  datatype Entry = Entry(fate: Fate, inst: Instance)

  datatype State = State(
    abi: Abi,
    status: Status,
    mask: set<Sig>,
    pending: seq<Instance>,
    actions: map<Sig, Action>,
    frames: seq<Frame>,
    alt: Alt,
    regs: Regs,
    sleep: Sleep,
    log: seq<Entry>)

  datatype Event =
    | Send(inst: Instance)
    | Deliver
    | Block(sigs: set<Sig>)
    | Unblock(sigs: set<Sig>)
    | SetMask(sigs: set<Sig>)
    | Suspend(sigs: set<Sig>)
    | WaitInfo(sigs: set<Sig>)
    | Install(sig: Sig, action: Action)
    | SetAlt(req: StackT)
    | Work(regs: Regs)
    | EditMask(sigs: set<Sig>)
    | EditAlt(req: StackT)
    | EditRegs(regs: Regs)
    | Return
    | Longjmp(depth: nat, regs: Regs)
    | Call(nr: int)
    | Complete(result: int)

  const EINTR: int := 4
  const EAGAIN: int := 11
  const ENOMEM: int := 12
  const EPERM: int := 1
  const EINVAL: int := 22

  const SS_ONSTACK: nat := 1
  const SS_DISABLE: nat := 2
  const SS_AUTODISARM: nat := 0x8000_0000
  const MINSIGSTKSZ: nat := 2048

  /** Both `syscall` (0f 05) and `int 0x80` (cd 80) are two bytes long. */
  const SYSCALL_LENGTH: int := 2

  function Fresh(abi: Abi, regs: Regs): State {
    State(abi, Alive, {}, [], map[], [], Off, regs, Awake, [])
  }

  // ---------------------------------------------------------------- alternate stack

  function ToStackT(alt: Alt): StackT {
    match alt
    case Off => StackT(0, 0, SS_DISABLE)
    case On(sp, size, a) => StackT(sp, size, if a then SS_AUTODISARM else 0)
  }

  predicate Within(sp: int, base: int, size: nat) {
    base < sp && sp - base <= size
  }

  /** An auto-disarming stack is never in use: it is switched off while a handler runs on it. */
  predicate OnAlt(alt: Alt, sp: int) {
    alt.On? && !alt.autodisarm && Within(sp, alt.sp, alt.size)
  }

  /** What `sigaltstack(nullptr, &q)` writes to `q`. */
  function QueryAlt(alt: Alt, sp: int): StackT {
    var q := ToStackT(alt);
    if OnAlt(alt, sp) then q.(flags := q.flags + SS_ONSTACK) else q
  }

  /** Zero, or the error number `sigaltstack(&req, nullptr)` fails with. */
  function AltError(alt: Alt, sp: int, req: StackT): int {
    var mode := req.flags % SS_AUTODISARM;
    if OnAlt(alt, sp) then EPERM
    else if mode != 0 && mode != SS_ONSTACK && mode != SS_DISABLE then EINVAL
    else if mode != SS_DISABLE && req.size < MINSIGSTKSZ then ENOMEM
    else 0
  }

  function AltOf(req: StackT): Alt {
    if req.flags % SS_AUTODISARM == SS_DISABLE then Off
    else On(req.sp, req.size, req.flags / SS_AUTODISARM % 2 == 1)
  }

  function ChangeAlt(alt: Alt, sp: int, req: StackT): Alt {
    if AltError(alt, sp, req) == 0 then AltOf(req) else alt
  }

  // ---------------------------------------------------------------- frame placement

  function WordSize(abi: Abi): int {
    if abi.Abi64? then 8 else 4
  }

  function RedZone(abi: Abi): int {
    if abi.Abi64? then 128 else 0
  }

  /** The stack pointer a handler starts with when its frame is carved downwards from `top`. */
  function EntrySp(abi: Abi, top: int): int {
    match abi
    case Abi64(frame) => (top - frame) / 16 * 16 - 8
    case Abi32(frame) => (top - frame + 4) / 16 * 16 - 4
  }

  function FrameTop(abi: Abi, alt: Alt, sp: int, onStack: bool): int {
    if onStack && alt.On? && !OnAlt(alt, sp) then alt.sp + alt.size else sp - RedZone(abi)
  }

  // ---------------------------------------------------------------- delivery

  function ActionOf(actions: map<Sig, Action>, s: Sig): Action {
    if s in actions then actions[s] else Default
  }

  predicate IsIgnored(actions: map<Sig, Action>, s: Sig) {
    var a := ActionOf(actions, s);
    a.Ignore? || (a.Default? && IgnoredByDefault(s))
  }

  predicate CanDeliver(s: State) {
    s.status.Alive? && Pick(s.pending, s.mask) < |s.pending|
  }

  /** The mask the thread goes back to: during `sigsuspend`, the one it came with. */
  function Home(s: State): set<Sig> {
    if s.sleep.InSuspend? then s.sleep.orig else s.mask
  }

  /** The registers a frame saves: a sleeping call fails with EINTR or is rewound. */
  function Interrupted(s: State, restart: bool): Regs {
    match s.sleep
    case Awake => s.regs
    case InSuspend(_) => s.regs.(rax := -EINTR)
    case InCall(nr) =>
      if restart then s.regs.(pc := s.regs.pc - SYSCALL_LENGTH, rax := nr)
      else s.regs.(rax := -EINTR)
  }

  function MakeFrame(s: State, inst: Instance, a: Action): Frame
    requires a.Handler?
  {
    var top := FrameTop(s.abi, s.alt, s.regs.sp, a.onStack);
    Frame(inst, Home(s), ToStackT(s.alt), Interrupted(s, a.restart), EntrySp(s.abi, top), top)
  }

  function Push(s: State, inst: Instance, a: Action): State
    requires a.Handler?
  {
    var f := MakeFrame(s, inst, a);
    s.(mask := Filter(s.mask + a.saMask + (if a.noDefer then {} else {inst.sig})),
       actions := if a.resetHand then s.actions[inst.sig := Default] else s.actions,
       frames := s.frames + [f],
       alt := if s.alt.On? && s.alt.autodisarm then Off else s.alt,
       regs := Regs(f.entry, a.code, 0),
       sleep := Awake,
       log := s.log + [Entry(Handled, inst)])
  }

  /** Takes the next unblocked instance and acts on it. */
  function DeliverNext(s: State): State
    requires CanDeliver(s)
  {
    var i := Pick(s.pending, s.mask);
    var inst := s.pending[i];
    var a := ActionOf(s.actions, inst.sig);
    var t := s.(pending := Remove(s.pending, i));
    if IsIgnored(s.actions, inst.sig) then t.(log := t.log + [Entry(Discarded, inst)])
    else if a.Handler? then Push(t, inst, a)
    else if StopsByDefault(inst.sig) then
      t.(status := Stopped(inst.sig), log := t.log + [Entry(Stopping, inst)])
    else t.(status := Killed(inst.sig), log := t.log + [Entry(Fatal, inst)])
  }

  /** Before any user instruction runs, the kernel delivers everything that is deliverable. */
  function Settle(s: State): (t: State)
    ensures !CanDeliver(t)
    ensures |t.pending| <= |s.pending|
    ensures 2 * |t.pending| + |t.frames| <= 2 * |s.pending| + |s.frames|
    decreases |s.pending|
  {
    if CanDeliver(s) then Settle(DeliverNext(s)) else s
  }

  // ---------------------------------------------------------------- sending

  predicate IsPending(q: seq<Instance>, sig: Sig) {
    exists i :: 0 <= i < |q| && q[i].sig == sig
  }

  /** What a send does at once: an ignored signal is dropped unless it is blocked, a standard
      signal that is pending already absorbs the new one, anything else is queued (`Sent`). */
  function FateOfSend(s: State, inst: Instance): Fate {
    if IsIgnored(s.actions, inst.sig) && inst.sig !in s.mask then Discarded
    else if !Realtime(inst.sig) && IsPending(s.pending, inst.sig) then Coalesced
    else Sent
  }

  function SendTo(s: State, inst: Instance): State {
    var wake := s.status.Stopped? && (inst.sig == SIGCONT || inst.sig == SIGKILL);
    var fate := FateOfSend(s, inst);
    var log := s.log + [Entry(Sent, inst)];
    s.(status := if wake then Alive else s.status,
       pending := if fate == Sent then s.pending + [inst] else s.pending,
       log := if fate == Sent then log else log + [Entry(fate, inst)])
  }

  /** What `sigpending` reports. */
  function PendingSet(s: State): set<Sig> {
    set i | 0 <= i < |s.pending| && s.pending[i].sig in s.mask :: s.pending[i].sig
  }

  // ---------------------------------------------------------------- calls of the thread

  function DropSig(q: seq<Instance>, sig: Sig): seq<Instance> {
    if q == [] then []
    else (if q[0].sig == sig then [] else [q[0]]) + DropSig(q[1..], sig)
  }

  function AllDiscarded(q: seq<Instance>): seq<Entry> {
    if q == [] then [] else [Entry(Discarded, q[0])] + AllDiscarded(q[1..])
  }

  /** `sigprocmask` with SIG_BLOCK, SIG_UNBLOCK and SIG_SETMASK. */
  function BlockMore(s: State, m: set<Sig>): State {
    s.(mask := s.mask + Filter(m))
  }

  function UnblockSome(s: State, m: set<Sig>): State {
    s.(mask := s.mask - m)
  }

  function ReplaceMask(s: State, m: set<Sig>): State {
    s.(mask := Filter(m))
  }

  /** `sigsuspend`: the thread sleeps under `m`, its own mask put aside. */
  function EnterSuspend(s: State, m: set<Sig>): State {
    s.(mask := Filter(m), sleep := InSuspend(s.mask), regs := s.regs.(pc := s.regs.pc + SYSCALL_LENGTH))
  }

  /** `sigaltstack` with a new setting. */
  function ArmAlt(s: State, req: StackT): State {
    var error := AltError(s.alt, s.regs.sp, req);
    s.(alt := ChangeAlt(s.alt, s.regs.sp, req), regs := s.regs.(rax := -error))
  }

  /** `sigaction`: KILL and STOP are refused, and a change to "ignore" empties the signal's queue. */
  function InstallAction(s: State, sig: Sig, a: Action): State {
    if sig in UNBLOCKABLE then s.(regs := s.regs.(rax := -EINVAL))
    else
      var b := if a.Handler? then a.(saMask := Filter(a.saMask)) else a;
      var t := s.(actions := s.actions[sig := b], regs := s.regs.(rax := 0));
      if IsIgnored(t.actions, sig) then
        t.(pending := DropSig(s.pending, sig), log := s.log + AllDiscarded(OnlySig(s.pending, sig)))
      else t
  }

  /** `sigtimedwait`: takes the lowest pending signal of `set`, or times out. */
  function WaitFor(s: State, sigs: set<Sig>): State {
    var i := Pick(s.pending, FULL - sigs);
    if i < |s.pending| then
      s.(pending := Remove(s.pending, i),
         regs := s.regs.(rax := s.pending[i].sig),
         log := s.log + [Entry(Waited, s.pending[i])])
    else s.(regs := s.regs.(rax := -EAGAIN))
  }

  /** `sigreturn` from the innermost frame; a refused `uc_stack` is passed over in silence. */
  function ReturnFrom(s: State): State
    requires s.frames != []
  {
    var n := |s.frames| - 1;
    var f := s.frames[n];
    s.(mask := Filter(f.mask), frames := s.frames[..n], regs := f.regs,
       alt := ChangeAlt(s.alt, f.regs.sp, f.alt))
  }

  function EditTop(s: State, f: Frame): State
    requires s.frames != []
  {
    s.(frames := s.frames[|s.frames| - 1 := f])
  }

  function TopFrame(s: State): Frame
    requires s.frames != []
  {
    s.frames[|s.frames| - 1]
  }

  // ---------------------------------------------------------------- steps

  /** The thread runs its own instructions only when nothing is left to deliver. */
  predicate InUserMode(s: State) {
    s.status.Alive? && s.sleep.Awake? && !CanDeliver(s)
  }

  predicate Enabled(s: State, e: Event) {
    match e
    case Send(_) => true
    case Deliver => CanDeliver(s)
    case Complete(_) => s.status.Alive? && s.sleep.InCall?
    case EditMask(_) => InUserMode(s) && s.frames != []
    case EditAlt(_) => InUserMode(s) && s.frames != []
    case EditRegs(_) => InUserMode(s) && s.frames != []
    case Return => InUserMode(s) && s.frames != []
    case Longjmp(d, _) => InUserMode(s) && d <= |s.frames|
    case _ => InUserMode(s)
  }

  function Next(s: State, e: Event): State
    requires Enabled(s, e)
  {
    match e
    case Send(inst) => SendTo(s, inst)
    case Deliver => DeliverNext(s)
    case Block(m) => BlockMore(s, m)
    case Unblock(m) => UnblockSome(s, m)
    case SetMask(m) => ReplaceMask(s, m)
    case Suspend(m) => EnterSuspend(s, m)
    case WaitInfo(m) => WaitFor(s, m)
    case Install(sig, a) => InstallAction(s, sig, a)
    case SetAlt(req) => ArmAlt(s, req)
    case Work(r) => s.(regs := r)
    case EditMask(m) => EditTop(s, TopFrame(s).(mask := m))
    case EditAlt(req) => EditTop(s, TopFrame(s).(alt := req))
    case EditRegs(r) => EditTop(s, TopFrame(s).(regs := r))
    case Return => ReturnFrom(s)
    case Longjmp(d, r) => s.(frames := s.frames[..d], regs := r)
    case Call(nr) => s.(sleep := InCall(nr), regs := s.regs.(pc := s.regs.pc + SYSCALL_LENGTH))
    case Complete(v) => s.(sleep := Awake, regs := s.regs.(rax := v))
  }

  /** A delivery takes one instance and records one fate for it. */
  lemma DeliverShape(s: State) returns (x: Instance, f: Fate)
    requires CanDeliver(s)
    ensures x == s.pending[Pick(s.pending, s.mask)] && f != Sent
    ensures DeliverNext(s).pending == Remove(s.pending, Pick(s.pending, s.mask))
    ensures DeliverNext(s).log == s.log + [Entry(f, x)]
    ensures f == Handled <==> ActionOf(s.actions, x.sig).Handler?
  {
    x := s.pending[Pick(s.pending, s.mask)];
    f := if IsIgnored(s.actions, x.sig) then Discarded
         else if ActionOf(s.actions, x.sig).Handler? then Handled
         else if StopsByDefault(x.sig) then Stopping else Fatal;
  }

  /** While the thread runs, `sigpending` reports a signal exactly when its queue is not empty. */
  lemma PendingSetIsQueue(s: State, sig: Sig)
    requires InUserMode(s)
    ensures sig in PendingSet(s) <==> OnlySig(s.pending, sig) != []
  {
    OnlySigAbsent(s.pending, sig);
    assert !Eligible(s.pending, s.mask);
  }

  lemma DeliverHandler(s: State)
    requires CanDeliver(s)
    requires ActionOf(s.actions, s.pending[Pick(s.pending, s.mask)].sig).Handler?
    ensures var i := Pick(s.pending, s.mask);
            var x := s.pending[i];
            DeliverNext(s) == Push(s.(pending := Remove(s.pending, i)), x, ActionOf(s.actions, x.sig))
  {
  }

  lemma SettleStep(s: State)
    requires CanDeliver(s)
    ensures Settle(s) == Settle(DeliverNext(s))
  {
  }

  /** The steps that only touch the thread's own context. */
  predicate IsLocal(e: Event) {
    !e.Send? && !e.Deliver? && !e.WaitInfo? && !e.Install?
  }

  lemma LocalStepShape(s: State, e: Event)
    requires Enabled(s, e) && IsLocal(e)
    ensures Next(s, e).pending == s.pending && Next(s, e).log == s.log && Next(s, e).actions == s.actions
  {
  }

  // ---------------------------------------------------------------- runs

  /** `es` can happen from `s`, and each of its steps satisfies `ok`. */
  ghost predicate Throughout(s: State, es: seq<Event>, ok: (State, Event) -> bool)
    decreases |es|
  {
    es == [] || (Enabled(s, es[0]) && ok(s, es[0]) && Throughout(Next(s, es[0]), es[1..], ok))
  }

  ghost predicate Feasible(s: State, es: seq<Event>) {
    Throughout(s, es, (_, _) => true)
  }

  ghost function Exec(s: State, es: seq<Event>): State
    requires Feasible(s, es)
    decreases |es|
  {
    if es == [] then s else Exec(Next(s, es[0]), es[1..])
  }

  lemma {:induction false} ThroughoutIsFeasible(s: State, es: seq<Event>, ok: (State, Event) -> bool)
    requires Throughout(s, es, ok)
    ensures Feasible(s, es)
    decreases |es|
  {
    if es != [] {
      ThroughoutIsFeasible(Next(s, es[0]), es[1..], ok);
    }
  }

  /** What every step keeps, every run keeps. */
  lemma {:induction false} RunInduction(s: State, es: seq<Event>, ok: (State, Event) -> bool, inv: State -> bool)
    requires Throughout(s, es, ok)
    requires inv(s)
    requires forall t, e :: inv(t) && Enabled(t, e) && ok(t, e) ==> inv(Next(t, e))
    ensures Feasible(s, es) && inv(Exec(s, es))
    decreases |es|
  {
    ThroughoutIsFeasible(s, es, ok);
    if es != [] {
      RunInduction(Next(s, es[0]), es[1..], ok, inv);
    }
  }
}
