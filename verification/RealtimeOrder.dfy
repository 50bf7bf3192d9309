/** Handlers whose masks cover each other run one at a time, in the stable sort of the send order by
    signal number, whatever was sent: `multiple-realtime` and `mask-all`. */
module RealtimeOrder {
  import opened Signals
  import opened Queue
  import opened Machine
  import opened Nesting
  import opened UserCalls

  predicate CoveringHandler(a: Action, q: seq<Instance>) {
    && a.Handler? && !a.resetHand
    && forall j :: 0 <= j < |q| ==> q[j].sig in Filter(a.saMask)
  }

  /** No handler is live, everything pending is deliverable, and each handler keeps all the others out. */
  predicate Serving(b: State) {
    && b.status.Alive? && b.sleep.Awake? && b.frames == [] && Resumable(b)
    && (forall i :: 0 <= i < |b.pending| ==> b.pending[i].sig !in b.mask)
    && (forall i :: 0 <= i < |b.pending| ==> CoveringHandler(ActionOf(b.actions, b.pending[i].sig), b.pending))
  }

  lemma RemoveSubset(q: seq<Instance>, i: nat)
    requires i < |q|
    ensures forall k :: 0 <= k < |Remove(q, i)| ==> Remove(q, i)[k] in q
  {
    forall k | 0 <= k < |Remove(q, i)| ensures Remove(q, i)[k] in q {
      assert Remove(q, i)[k] == q[if k < i then k else k + 1];
    }
  }

  /** What is left once the next handler has run and returned. */
  function Served(b: State): State
    requires b.pending != []
  {
    assert b.pending[0].sig !in {};
    var i := Pick(b.pending, {});
    b.(pending := Remove(b.pending, i), log := b.log + [Entry(Handled, b.pending[i])])
  }

  lemma ServingPick(b: State)
    requires Serving(b) && b.pending != []
    ensures CanDeliver(b) && Pick(b.pending, b.mask) == Pick(b.pending, {})
    ensures Serving(Served(b))
    ensures ServiceOrder(b.pending) == [b.pending[Pick(b.pending, {})]] + ServiceOrder(Served(b).pending)
  {
    assert b.pending[0].sig !in b.mask;
    var i := Pick(b.pending, b.mask);
    assert IsNext(b.pending, {}, i);
    NextIsUnique(b.pending, {}, i);
    RemoveSubset(b.pending, i);
  }

  lemma ServingFrame(b: State)
    requires Serving(b) && b.pending != []
    ensures var t := Settle(b);
            && InUserMode(t) && |t.frames| == 1
            && t.pending == Served(b).pending && t.log == Served(b).log && t.actions == b.actions && t.abi == b.abi
            && t.frames[0].mask == b.mask && t.frames[0].alt == ToStackT(b.alt) && t.frames[0].regs == b.regs
            && t.frames[0].inst == b.pending[Pick(b.pending, {})]
            && (t.alt == b.alt || t.alt == Off)
  {
    ServingPick(b);
    SettleStep(b);
    DeliverHandler(b);
    var t := DeliverNext(b);
    RemoveSubset(b.pending, Pick(b.pending, {}));
    assert forall k :: 0 <= k < |t.pending| ==> t.pending[k].sig in t.mask;
    assert !CanDeliver(t);
  }

  /** One round: a single frame goes up for the next instance in service order, and its return
      leaves the thread as it was, less that instance. */
  lemma ServingCycle(b: State)
    requires Serving(b) && b.pending != []
    ensures var t := Settle(b);
            && InUserMode(t) && |t.frames| == 1 && t.frames[0].inst == b.pending[Pick(b.pending, {})]
            && Serving(Served(b)) && ReturnFrom(t) == Served(b)
            && ServiceOrder(b.pending) == [t.frames[0].inst] + ServiceOrder(Served(b).pending)
  {
    ServingPick(b);
    ServingFrame(b);
    RestoreAltExact(Settle(b).alt, b.alt, b.regs.sp);
    assert Filter(b.mask) == b.mask;
    assert ReturnFrom(Settle(b)).frames == [];
  }

  lemma ServingRound(b: State) returns (x: Instance, c: State)
    requires Serving(b) && b.pending != []
    ensures Settle(b).frames != [] && TopFrame(Settle(b)).inst == x && ReturnFrom(Settle(b)) == c
    ensures Serving(c) && ServiceOrder(b.pending) == [x] + ServiceOrder(c.pending)
    ensures |c.pending| == |b.pending| - 1 && c == b.(pending := c.pending, log := b.log + [Entry(Handled, x)])
  {
    ServingCycle(b);
    x, c := b.pending[Pick(b.pending, {})], Served(b);
    ServedShrinks(b);
  }

  lemma ServedShrinks(b: State)
    requires b.pending != []
    ensures b.pending[0].sig !in {} && |Served(b).pending| == |b.pending| - 1
  {
    assert b.pending[0].sig !in {};
  }

  /** The same round seen as a single kernel step. */
  lemma ServingDeliver(b: State) returns (t: State, x: Instance, c: State)
    requires Serving(b) && b.pending != []
    ensures CanDeliver(b) && DeliverNext(b) == t && InUserMode(t)
    ensures |t.frames| == 1 && t.frames[0].inst == x && ReturnFrom(t) == c
    ensures |t.pending| == |b.pending| - 1
    ensures Serving(c) && ServiceOrder(b.pending) == [x] + ServiceOrder(c.pending)
  {
    ServingPick(b);
    ServingCycle(b);
    t := DeliverNext(b);
    DeliverHandler(b);
    RemoveSubset(b.pending, Pick(b.pending, {}));
    assert forall k :: 0 <= k < |t.pending| ==> t.pending[k].sig in t.mask;
    assert !CanDeliver(t);
    assert Settle(b) == t;
    x, c := t.frames[0].inst, Served(b);
  }

  /** A handler is on the stack exactly as long as something was pending. */
  lemma ServingHead(b: State)
    requires Serving(b)
    ensures Settle(b).frames != [] <==> b.pending != []
    ensures b.pending == [] ==> Settle(b) == b && ServiceOrder(b.pending) == []
  {
    if b.pending != [] {
      ServingFrame(b);
    }
  }

  // ---------------------------------------------------------------- every run

  function HandledAll(xs: seq<Instance>): seq<Entry> {
    seq(|xs|, i requires 0 <= i < |xs| => Entry(Handled, xs[i]))
  }

  /** The kernel delivers, and handlers run their own instructions and return. */
  predicate OnlyServes(s: State, e: Event) {
    e.Deliver? || e.Return? || (e.Work? && s.frames != [])
  }

  /** `b` with the first `n` instances of its service order handled. */
  predicate ServedTo(b0: State, b: State, n: nat) {
    && n <= |ServiceOrder(b0.pending)|
    && Serving(b)
    && ServiceOrder(b.pending) == ServiceOrder(b0.pending)[n..]
    && b == b0.(pending := b.pending, log := b0.log + HandledAll(ServiceOrder(b0.pending)[..n]))
  }

  /** Between two handlers of such a run, or inside one of them. */
  ghost predicate Midway(b0: State, t: State) {
    exists b: State, n: nat :: ServedTo(b0, b, n) && (t == b || InHandler(b, t))
  }

  /** `t` is in the handler that `b` delivers first. */
  predicate InHandler(b: State, t: State) {
    Serving(b) && b.pending != [] && t == Settle(b).(regs := t.regs)
  }

  lemma ServedOneMore(b0: State, b: State, n: nat)
    requires ServedTo(b0, b, n) && b.pending != []
    ensures ServedTo(b0, Served(b), n + 1)
  {
    var all := ServiceOrder(b0.pending);
    var c := Served(b);
    var x := b.pending[Pick(b.pending, {})];
    ServingPick(b);
    NextPrefix(all, n, x, ServiceOrder(c.pending), b0.log);
  }

  lemma NextPrefix(all: seq<Instance>, n: nat, x: Instance, rest: seq<Instance>, log: seq<Entry>)
    requires n <= |all| && all[n..] == [x] + rest
    ensures n < |all| && all[n + 1..] == rest
    ensures log + HandledAll(all[..n]) + [Entry(Handled, x)] == log + HandledAll(all[..n + 1])
  {
    assert |all| == n + 1 + |rest| && all[n] == ([x] + rest)[0];
    assert all[n + 1..] == all[n..][1..];
    assert HandledAll(all[..n + 1]) == HandledAll(all[..n]) + [Entry(Handled, x)];
  }

  lemma HandlerStep(b: State, t: State, e: Event)
    requires InHandler(b, t) && Enabled(t, e) && OnlyServes(t, e)
    ensures if e.Return? then Next(t, e) == Served(b) else InHandler(b, Next(t, e))
  {
    ServingCycle(b);
    assert ReturnFrom(t) == ReturnFrom(Settle(b));
  }

  lemma BetweenStep(b: State, e: Event)
    requires Serving(b) && Enabled(b, e) && OnlyServes(b, e)
    ensures InHandler(b, Next(b, e))
  {
    assert e.Deliver?;
    var _, _, _ := ServingDeliver(b);
  }

  lemma MidwayStep(b0: State, t: State, e: Event)
    requires Midway(b0, t) && Enabled(t, e) && OnlyServes(t, e)
    ensures Midway(b0, Next(t, e))
  {
    var b: State, n: nat :| ServedTo(b0, b, n) && (t == b || InHandler(b, t));
    if t == b {
      BetweenStep(b, e);
    } else {
      HandlerStep(b, t, e);
      if e.Return? { ServedOneMore(b0, b, n); }
    }
  }

  /** Whatever instructions the handlers run between entry and return, one unblock serves the queue in the
      stable sort of its sends: along the way always a prefix of it, and when nothing is left all of
      it, each instance once, with mask, alternate stack, registers and frames as they were. */
  lemma {:induction false} OneUnblockServesStableSort(b: State, es: seq<Event>)
    requires Serving(b) && Throughout(b, es, OnlyServes)
    ensures Feasible(b, es) && IsStableSort(b.pending, ServiceOrder(b.pending))
    ensures var t := Exec(b, es);
            PrefixServed(b, t) && (t.frames == [] && !CanDeliver(t) ==> t == AllServed(b))
  {
    ServiceOrderIsStableSort(b.pending);
    MidwayStart(b);
    var inv := (t: State) => Midway(b, t);
    forall t, e | inv(t) && Enabled(t, e) && OnlyServes(t, e) ensures inv(Next(t, e)) {
      MidwayStep(b, t, e);
    }
    RunInduction(b, es, OnlyServes, inv);
    MidwayMeans(b, Exec(b, es));
  }

  lemma MidwayStart(b: State)
    requires Serving(b)
    ensures Midway(b, b)
  {
    var all := ServiceOrder(b.pending);
    assert all[0..] == all && b.log + HandledAll(all[..0]) == b.log;
    assert ServedTo(b, b, 0);
  }

  /** The log tells of a prefix of the service order: all that is not pending any more. */
  predicate PrefixServed(b0: State, t: State) {
    var all := ServiceOrder(b0.pending);
    && |t.pending| <= |all| == |b0.pending|
    && t.log == b0.log + HandledAll(all[..|all| - |t.pending|])
  }

  function AllServed(b0: State): State {
    b0.(pending := [], log := b0.log + HandledAll(ServiceOrder(b0.pending)))
  }

  lemma MidwayMeans(b0: State, t: State)
    requires Midway(b0, t)
    ensures PrefixServed(b0, t)
    ensures t.frames == [] && !CanDeliver(t) ==> t == AllServed(b0)
  {
    var b: State, n: nat :| ServedTo(b0, b, n) && (t == b || InHandler(b, t));
    if t == b {
      BetweenMeans(b0, b, n);
    } else {
      ServedOneMore(b0, b, n);
      BetweenMeans(b0, Served(b), n + 1);
      ServingFrame(b);
    }
  }

  lemma BetweenMeans(b0: State, b: State, n: nat)
    requires ServedTo(b0, b, n)
    ensures PrefixServed(b0, b)
    ensures !CanDeliver(b) ==> b == AllServed(b0)
  {
    var all := ServiceOrder(b0.pending);
    ServiceOrderLength(b0.pending);
    ServiceOrderLength(b.pending);
    if b.pending == [] {
      assert all[..n] == all;
    } else {
      ServingPick(b);
    }
  }

  // ---------------------------------------------------------------- the send pattern

  const CAFE: int := 0xCAFE

  /** What the loop of `main` queues: each payload to the higher signal first, then to the lower. */
  function Alternating(low: Sig, n: nat): seq<Instance>
    requires low < 64
  {
    if n == 0 then []
    else Alternating(low, n - 1) + [Instance(low + 1, CAFE + n - 1), Instance(low, CAFE + n - 1)]
  }

  function Payloads(sig: Sig, n: nat): seq<Instance> {
    seq(n, i => Instance(sig, CAFE + i))
  }

  lemma PairOnly(low: Sig, v: int, s: Sig)
    requires low < 64
    ensures OnlySig([Instance(low + 1, v), Instance(low, v)], s) ==
            if s == low || s == low + 1 then [Instance(s, v)] else []
  {
    var x, y := Instance(low + 1, v), Instance(low, v);
    assert [x, y][1..] == [y] && [y][1..] == [];
    assert OnlySig([y], s) == if s == low then [y] else [];
  }

  lemma {:induction false} AlternatingSignals(low: Sig, n: nat)
    requires low < 64
    ensures |Alternating(low, n)| == 2 * n
    ensures forall i :: 0 <= i < 2 * n ==> Alternating(low, n)[i].sig == low || Alternating(low, n)[i].sig == low + 1
  {
    if n != 0 {
      AlternatingSignals(low, n - 1);
    }
  }

  lemma {:induction false} AlternatingOnly(low: Sig, n: nat, s: Sig)
    requires low < 64
    ensures OnlySig(Alternating(low, n), s) == if s == low || s == low + 1 then Payloads(s, n) else []
  {
    if n == 0 {
      assert Payloads(s, 0) == [];
    } else {
      AlternatingOnly(low, n - 1, s);
      var v := CAFE + n - 1;
      PairOnly(low, v, s);
      OnlySigConcat(Alternating(low, n - 1), [Instance(low + 1, v), Instance(low, v)], s);
      assert Payloads(s, n) == Payloads(s, n - 1) + [Instance(s, v)];
    }
  }

  lemma {:induction false} BlockOnly(sig: Sig, n: nat, s: Sig)
    ensures OnlySig(Payloads(sig, n), s) == if s == sig then Payloads(sig, n) else []
  {
    if n != 0 {
      BlockOnly(sig, n - 1, s);
      var x := Instance(sig, CAFE + n - 1);
      assert Payloads(sig, n) == Payloads(sig, n - 1) + [x];
      OnlySigConcat(Payloads(sig, n - 1), [x], s);
      assert OnlySig([x], s) == if s == sig then [x] else [];
    } else {
      assert Payloads(sig, n) == [];
    }
  }

  /** The alternating sends are served as two blocks of ascending payloads, the lower signal first. */
  lemma AlternatingService(low: Sig, n: nat)
    requires low < 64
    ensures ServiceOrder(Alternating(low, n)) == Payloads(low, n) + Payloads(low + 1, n)
  {
    var q, r := Alternating(low, n), Payloads(low, n) + Payloads(low + 1, n);
    forall s: Sig ensures OnlySig(r, s) == OnlySig(q, s) {
      TwoBlocksOnly(low, n, s);
      AlternatingOnly(low, n, s);
    }
    ServiceOrderIsStableSort(q);
    StableSortIsUnique(q, ServiceOrder(q), r);
  }

  lemma TwoBlocksOnly(low: Sig, n: nat, s: Sig)
    requires low < 64
    ensures OnlySig(Payloads(low, n) + Payloads(low + 1, n), s) ==
            if s == low || s == low + 1 then Payloads(s, n) else []
  {
    OnlySigConcat(Payloads(low, n), Payloads(low + 1, n), s);
    BlockOnly(low, n, s);
    BlockOnly(low + 1, n, s);
  }

  // ---------------------------------------------------------------- the program

  /** What the handler asserts on its call number `i`. */
  predicate Expected(mysig: Sig, n: nat, i: nat, info: Instance) {
    if i < n then info.sig == mysig && info.value == CAFE + i
    else info.sig == mysig + 1 && info.value == CAFE + (i - n)
  }

  class MultipleRealtime {
    const mysig: Sig
    const n: nat
    var count: nat
    var failed: bool
    ghost var trace: seq<Instance>

    constructor (mysig: Sig, n: nat)
      ensures this.mysig == mysig && this.n == n && count == 0 && !failed && trace == []
    {
      this.mysig, this.n := mysig, n;
      count, failed, trace := 0, false, [];
    }

    /** The handler's assertions: the first `n` calls are for `mysig`, the rest for the next signal,
        with payloads counted from 0xCAFE each time. */
    method SignalHandler(info: Instance)
      modifies this
      ensures count == old(count) + 1 && trace == old(trace) + [info]
      ensures failed == (old(failed) || !Expected(mysig, n, old(count), info))
    {
      if count < n {
        if info.sig != mysig { failed := true; }
        var i := count;
        if info.value != CAFE + i { failed := true; }
      } else {
        if info.sig != mysig + 1 { failed := true; }
        var i := count - n;
        if info.value != CAFE + i { failed := true; }
      }
      count := count + 1;
      trace := trace + [info];
    }

    /** Runs the live handler to its `sigreturn`. */
    method ServeOne(k: State) returns (t: State)
      requires k.frames != []
      modifies this
      ensures t == Settle(ReturnFrom(k)) && trace == old(trace) + [TopFrame(k).inst] && count == old(count) + 1
      ensures failed == (old(failed) || !Expected(mysig, n, old(count), TopFrame(k).inst))
    {
      SignalHandler(TopFrame(k).inst);
      t := Settle(ReturnFrom(k));
    }

    /** What the globals record of the calls so far. */
    ghost predicate Records()
      reads this
    {
      count == |trace| && (failed <==> !AllExpected(mysig, n, trace))
    }

    /** `k` is the thread once the kernel has delivered what `b`, the rest of `b0`, has to deliver. */
    ghost predicate Serves(b0: State, b: State, k: State)
      reads this
    {
      && Serving(b) && SameThread(b0, b) && k == Settle(b) && (k.frames == [] ==> k == b)
      && (k.frames != [] <==> b.pending != [])
      && trace + ServiceOrder(b.pending) == ServiceOrder(b0.pending) && Records()
    }

    lemma ServesAtStart(b0: State)
      requires Serving(b0) && trace == [] && Records()
      ensures Serves(b0, b0, Settle(b0))
    {
      ServingHead(b0);
    }

    lemma ServesAtEnd(b0: State, b: State, k: State)
      requires Serves(b0, b, k) && k.frames == []
      ensures trace == ServiceOrder(b0.pending) && IsStableSort(b0.pending, trace) && count == |trace|
      ensures k.pending == [] && SameThread(b0, k)
    {
      ServingHead(b);
      assert trace + [] == trace;
      ServiceOrderIsStableSort(b0.pending);
    }

    method ServeNext(ghost b0: State, ghost b: State, k: State) returns (t: State, ghost c: State)
      requires Serves(b0, b, k) && k.frames != []
      modifies this
      ensures Serves(b0, c, t) && |c.pending| < |b.pending|
    {
      ghost var x, c0 := ServingRound(b);
      AllExpectedOneMore(mysig, n, trace, x);
      Associate(trace, x, ServiceOrder(c0.pending));
      ServingHead(c0);
      t := ServeOne(k);
      c := c0;
    }

    /** Serves everything pending, whatever was sent: the handler sees the stable sort of the queue,
        each instance once, and the thread is otherwise as it was. An assertion fails if and only if
        some instance is not what its place in that order calls for. */
    method ServeAll(b0: State) returns (k: State)
      requires Serving(b0) && trace == [] && count == 0 && !failed
      modifies this
      ensures trace == ServiceOrder(b0.pending) && IsStableSort(b0.pending, trace) && count == |trace|
      ensures failed <==> !AllExpected(mysig, n, ServiceOrder(b0.pending))
      ensures k.pending == [] && SameThread(b0, k)
    {
      ghost var b := b0;
      ServesAtStart(b0);
      k := Settle(b0);
      while k.frames != []
        invariant Serves(b0, b, k)
        decreases |b.pending|
      {
        k, b := ServeNext(b0, b, k);
      }
      ServesAtEnd(b0, b, k);
    }

    /** The same for any sends made while everything is blocked, in any order and number and with any
        payloads: all instances of realtime signals are served, of a standard signal the first. */
    method DriveAny(abi: Abi, regs: Regs, xs: seq<Instance>) returns (k: State)
      requires count == 0 && !failed && trace == []
      requires forall i :: 0 <= i < |xs| ==> xs[i].sig !in UNBLOCKABLE
      modifies this
      ensures IsStableSort(Accepted([], xs), trace) && count == |Accepted([], xs)|
      ensures forall s: Sig :: Keeps(trace, xs, s)
      ensures failed <==> !AllExpected(mysig, n, trace)
      ensures k.pending == [] && k.frames == [] && k.mask == {} && k.alt == Off
    {
      k := QueueUp(abi, regs, xs);
      ServiceOrderLength(Accepted([], xs));
      k := ServeAll(UnblockSome(k, FULL));
      forall s: Sig ensures Keeps(trace, xs, s) {
        AcceptedOnly(xs, s);
      }
    }

    /** For every `n` no assertion fails and the handler runs exactly `2 * n` times. */
    method Drive(abi: Abi, regs: Regs) returns (k: State)
      requires count == 0 && !failed && trace == [] && 32 <= mysig < 64
      modifies this
      ensures !failed && count == 2 * n && trace == Payloads(mysig, n) + Payloads(mysig + 1, n)
      ensures IsStableSort(Alternating(mysig, n), trace)
      ensures k.pending == [] && k.frames == [] && k.mask == {}
    {
      k := SetUp(abi, regs);
      k := QueuePayloads(k);
      AlternatingService(mysig, n);
      BlocksExpected(mysig, n);
      k := ServeAll(UnblockSome(k, FULL));
    }

    method SetUp(abi: Abi, regs: Regs) returns (k: State)
      requires 32 <= mysig < 64
      ensures Blocking(k, mysig)
    {
      k := BlockMore(Fresh(abi, regs), FULL);
      k := InstallAll(k, [mysig, mysig + 1], COVERING);
    }

    /** One turn of the queueing loop. */
    method QueuePair(ghost k0: State, i: nat, k: State) returns (t: State)
      requires 32 <= mysig < 64 && Blocking(k0, mysig) && k == Queued(k0, Alternating(mysig, i))
      ensures t == Queued(k0, Alternating(mysig, i + 1))
    {
      AlternatingQuiet(k0, mysig, i);
      ghost var pair := [Instance(mysig + 1, CAFE + i), Instance(mysig, CAFE + i)];
      QueuedTwice(k0, Alternating(mysig, i), pair);
      assert Alternating(mysig, i + 1) == Alternating(mysig, i) + pair;
      t := QueueAll(k, [Instance(mysig + 1, CAFE + i), Instance(mysig, CAFE + i)]);
    }

    /** The queueing loop of `main`. */
    method QueuePayloads(k0: State) returns (k: State)
      requires 32 <= mysig < 64 && Blocking(k0, mysig)
      ensures k == Queued(k0, Alternating(mysig, n)) && InUserMode(k)
      ensures var b := UnblockSome(k, FULL); Serving(b) && b.mask == {} && b.pending == Alternating(mysig, n)
    {
      k := k0;
      QueuedNothing(k);
      for i := 0 to n
        invariant k == Queued(k0, Alternating(mysig, i))
      {
        k := QueuePair(k0, i, k);
      }
      AlternatingQuiet(k0, mysig, n);
      AlternatingReady(k0, mysig, n);
    }
  }

  const COVERING: Action := Handler(0x1000, Filter(FULL), false, false, false, false)

  /** Everything is blocked and the covering handler is installed for both signals. */
  predicate Blocking(k: State, low: Sig)
    requires low < 64
  {
    && InUserMode(k) && k.mask == Filter(FULL) && k.pending == [] && k.frames == [] && AltOk(k.alt)
    && ActionOf(k.actions, low) == COVERING && ActionOf(k.actions, low + 1) == COVERING
  }

  /** Two states that differ in what is pending and what happened to it only. */
  predicate SameThread(s: State, t: State) {
    t == s.(pending := t.pending, log := t.log)
  }

  /** Every call finds what it asserts. */
  predicate AllExpected(low: Sig, n: nat, trace: seq<Instance>) {
    forall i :: 0 <= i < |trace| ==> Expected(low, n, i, trace[i])
  }

  lemma AllExpectedOneMore(low: Sig, n: nat, trace: seq<Instance>, x: Instance)
    ensures AllExpected(low, n, trace + [x]) <==> AllExpected(low, n, trace) && Expected(low, n, |trace|, x)
  {
    var all := trace + [x];
    assert all[|trace|] == x && forall i :: 0 <= i < |trace| ==> all[i] == trace[i];
  }

  lemma BlocksExpected(low: Sig, n: nat)
    requires low < 64
    ensures AllExpected(low, n, Payloads(low, n) + Payloads(low + 1, n))
  {
  }

  /** Everything is blocked, the covering handler is installed for every signal of `xs`, and all of
      `xs` has been sent. */
  method QueueUp(abi: Abi, regs: Regs, xs: seq<Instance>) returns (k: State)
    requires forall i :: 0 <= i < |xs| ==> xs[i].sig !in UNBLOCKABLE
    ensures InUserMode(k) && k.frames == [] && k.mask == Filter(FULL) && k.alt == Off
    ensures k.pending == Accepted([], xs)
    ensures forall i :: 0 <= i < |k.pending| ==>
              k.pending[i].sig !in UNBLOCKABLE && ActionOf(k.actions, k.pending[i].sig) == COVERING
    ensures var b := UnblockSome(k, FULL); Serving(b) && b.mask == {}
  {
    k := Fresh(abi, regs);
    var sigs := seq(|xs|, i requires 0 <= i < |xs| => xs[i].sig);
    k := InstallAll(k, sigs, COVERING);
    k := BlockMore(k, FULL);
    forall i | 0 <= i < |xs| ensures ActionOf(k.actions, xs[i].sig) == COVERING {
      assert sigs[i] in sigs;
    }
    k := SendAll(k, xs);
    forall i | 0 <= i < |k.pending| ensures k.pending[i] in xs {
      AcceptedMember([], xs, k.pending[i]);
    }
    assert UnblockSome(k, FULL).mask == {};
  }

  lemma QueuedTwice(k: State, xs: seq<Instance>, ys: seq<Instance>)
    ensures Queued(Queued(k, xs), ys) == Queued(k, xs + ys)
  {
    assert k.pending + xs + ys == k.pending + (xs + ys);
    assert k.log + SentAll(xs) + SentAll(ys) == k.log + SentAll(xs + ys);
  }

  lemma AlternatingQuiet(k: State, low: Sig, n: nat)
    requires 32 <= low < 64 && Blocking(k, low)
    ensures InUserMode(Queued(k, Alternating(low, n)))
  {
    AlternatingSignals(low, n);
    QueuedIsQuiet(k, Alternating(low, n));
  }

  lemma AlternatingReady(k: State, low: Sig, n: nat)
    requires 32 <= low < 64 && Blocking(k, low)
    requires InUserMode(Queued(k, Alternating(low, n)))
    ensures var b := UnblockSome(Queued(k, Alternating(low, n)), FULL);
            Serving(b) && b.mask == {} && b.pending == Alternating(low, n)
  {
    AlternatingSignals(low, n);
    assert k.pending + Alternating(low, n) == Alternating(low, n);
  }

  // ---------------------------------------------------------------- mask-all

  class MaskAll {
    const mysig: Sig
    var count: nat
    var failed: bool

    constructor (mysig: Sig)
      ensures this.mysig == mysig && count == 0 && !failed
    {
      this.mysig, count, failed := mysig, 0, false;
    }

    method SignalHandler(sig: Sig)
      modifies this
      ensures count == old(count) + 1
      ensures failed == (old(failed) || (if old(count) == 0 then sig != mysig else sig != mysig + 1))
    {
      if count == 0 {
        if sig != mysig { failed := true; }
      } else {
        if sig != mysig + 1 { failed := true; }
      }
      count := count + 1;
    }

    method ServeBoth(b: State) returns (k: State)
      requires Serving(b) && count == 0 && !failed && mysig < 64
      requires ServiceOrder(b.pending) == [Instance(mysig, 0), Instance(mysig + 1, 0)]
      modifies this
      ensures !failed && count == 2
      ensures k.pending == [] && k.frames == [] && k.mask == b.mask
    {
      TwoRounds(b, Instance(mysig, 0), Instance(mysig + 1, 0));
      k := Settle(b);
      SignalHandler(TopFrame(k).inst.sig);
      k := Settle(ReturnFrom(k));
      SignalHandler(TopFrame(k).inst.sig);
      k := Settle(ReturnFrom(k));
    }

    /** In whichever order the two signals are raised, no assertion fails. */
    method Drive(abi: Abi, regs: Regs, swapped: bool) returns (k: State)
      requires count == 0 && !failed && mysig < 64 && mysig !in UNBLOCKABLE && mysig + 1 !in UNBLOCKABLE
      modifies this
      ensures !failed && count == 2
      ensures k.pending == [] && k.frames == [] && k.mask == {}
    {
      var x, y := Instance(mysig, 0), Instance(mysig + 1, 0);
      var xs := if swapped then [y, x] else [x, y];
      TwoQueue(xs, x, y);
      AcceptedAll(xs);
      TwoServed(xs, x, y);
      k := QueueUp(abi, regs, xs);
      k := ServeBoth(UnblockSome(k, FULL));
    }
  }

  lemma RoundHead(b: State, x: Instance, rest: seq<Instance>) returns (c: State)
    requires Serving(b) && ServiceOrder(b.pending) == [x] + rest
    ensures Settle(b).frames != [] && TopFrame(Settle(b)).inst == x && ReturnFrom(Settle(b)) == c
    ensures Serving(c) && ServiceOrder(c.pending) == rest && c.mask == b.mask
  {
    ServiceOrderLength(b.pending);
    var y;
    y, c := ServingRound(b);
    assert ([x] + rest)[0] == y && ([x] + rest)[1..] == rest;
    assert ([y] + ServiceOrder(c.pending))[1..] == ServiceOrder(c.pending);
  }

  lemma TwoRounds(b: State, x: Instance, y: Instance)
    requires Serving(b) && ServiceOrder(b.pending) == [x, y]
    ensures var t1 := Settle(b);
            && t1.frames != [] && TopFrame(t1).inst == x
            && var t2 := Settle(ReturnFrom(t1));
               && t2.frames != [] && TopFrame(t2).inst == y
               && var t3 := Settle(ReturnFrom(t2));
                  t3.pending == [] && t3.frames == [] && t3.mask == b.mask
  {
    assert [x, y] == [x] + [y] && [y] == [y] + [];
    var c1 := RoundHead(b, x, [y]);
    var c2 := RoundHead(c1, y, []);
    ServiceOrderLength(c2.pending);
    ServingHead(c2);
  }

  lemma TwoQueue(xs: seq<Instance>, x: Instance, y: Instance)
    requires x.sig != y.sig && (xs == [x, y] || xs == [y, x])
    requires x.sig !in UNBLOCKABLE && y.sig !in UNBLOCKABLE
    ensures AllQueue([], xs) && forall i :: 0 <= i < |xs| ==> xs[i].sig !in UNBLOCKABLE
  {
  }

  lemma TwoServed(xs: seq<Instance>, x: Instance, y: Instance)
    requires x.sig < y.sig && (xs == [x, y] || xs == [y, x])
    ensures ServiceOrder(xs) == [x, y]
  {
    assert [x, y][1..] == [y] && [y, x][1..] == [x];
    forall s: Sig ensures OnlySig([x, y], s) == OnlySig(xs, s) {
      assert OnlySig([x], s) == if x.sig == s then [x] else [];
      assert OnlySig([y], s) == if y.sig == s then [y] else [];
    }
    ServiceOrderIsStableSort(xs);
    StableSortIsUnique(xs, ServiceOrder(xs), [x, y]);
  }
}
