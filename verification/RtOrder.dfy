/** `rt-order` in every interleaving: a parent sends a permutation of a range of realtime signals
    and releases a spin lock; the forked child then unblocks and serves them in ascending order. */
module RtOrder {
  import opened Signals
  import opened Queue
  import opened Machine
  import opened Nesting
  import opened UserCalls
  import opened RealtimeOrder

  datatype ChildPc = Spinning | Released | InHandlers | Done

  /** The shared word, what the parent has still to do, and the child with its globals. */
  datatype Conf = Conf(
    lock: nat,
    toSend: seq<Sig>,
    stored: bool,
    child: State,
    pc: ChildPc,
    nowServicing: int,
    serviced: nat,
    failed: bool)

  /** One step of one of the two processes. */
  datatype Move = ParentSends | ParentStores | ChildSpins | ChildUnblocks | KernelDelivers | HandlerRuns | ChildChecks

  predicate CanMove(c: Conf, m: Move) {
    match m
    case ParentSends => c.toSend != []
    case ParentStores => c.toSend == [] && !c.stored
    case ChildSpins => c.pc.Spinning?
    case ChildUnblocks => c.pc.Released? && InUserMode(c.child)
    case KernelDelivers => c.pc.InHandlers? && CanDeliver(c.child)
    case HandlerRuns => c.pc.InHandlers? && InUserMode(c.child) && c.child.frames != []
    case ChildChecks => c.pc.InHandlers? && InUserMode(c.child) && c.child.frames == []
  }

  function Moved(c: Conf, m: Move, lo: int, hi: int): Conf
    requires CanMove(c, m)
  {
    match m
    case ParentSends => c.(child := SendTo(c.child, Instance(c.toSend[0], 0)), toSend := c.toSend[1..])
    case ParentStores => c.(lock := 0, stored := true)
    case ChildSpins => c.(lock := 1, pc := if c.lock == 0 then Released else Spinning)
    case ChildUnblocks => c.(child := UnblockSome(c.child, FULL), pc := InHandlers)
    case KernelDelivers => c.(child := DeliverNext(c.child))
    case HandlerRuns =>
      c.(child := ReturnFrom(c.child),
         failed := c.failed || c.nowServicing != TopFrame(c.child).inst.sig,
         nowServicing := c.nowServicing + 1,
         serviced := c.serviced + 1)
    case ChildChecks =>
      c.(pc := Done, failed := c.failed || c.serviced != hi - lo || c.nowServicing != hi)
  }

  /** The configuration at the fork: both processes block everything, the handlers are installed. */
  predicate Forked(c: Conf, lo: int, hi: int) {
    && c.lock == 1 && !c.stored && c.pc.Spinning?
    && c.nowServicing == lo && c.serviced == 0 && !c.failed
    && InUserMode(c.child) && c.child.mask == Filter(FULL) && c.child.pending == [] && c.child.frames == []
    && AltOk(c.child.alt)
    && (forall s: Sig :: lo <= s < hi ==> ActionOf(c.child.actions, s) == COVERING)
  }

  predicate IsPermutation(perm: seq<Sig>, lo: int, hi: int) {
    && 32 <= lo <= hi <= 65
    && (forall i, j :: 0 <= i < j < |perm| ==> perm[i] != perm[j])
    && (forall s: Sig :: s in perm <==> lo <= s < hi)
  }

  /** `main` up to and including its `fork`. */
  method SetUp(abi: Abi, regs: Regs, perm: seq<Sig>, lo: int, hi: int) returns (c: Conf)
    requires IsPermutation(perm, lo, hi)
    ensures Forked(c, lo, hi) && c.toSend == perm
  {
    var sigs: seq<Sig> := seq(hi - lo, i requires 0 <= i < hi - lo => lo + i);
    var k := InstallAll(Fresh(abi, regs), sigs, COVERING);
    k := BlockMore(k, FULL);
    forall s: Sig | lo <= s < hi ensures ActionOf(k.actions, s) == COVERING {
      assert sigs[s - lo] == s;
    }
    c := Conf(1, perm, false, k, Spinning, lo, 0, false);
  }

  // ---------------------------------------------------------------- the order of service

  function Range(lo: int, hi: int): seq<Instance>
    requires 1 <= lo <= hi <= 65
  {
    seq(hi - lo, i requires 0 <= i < hi - lo => Instance(lo + i, 0))
  }

  lemma {:induction false} PlainOnly(sigs: seq<Sig>, s: Sig)
    requires forall i, j :: 0 <= i < j < |sigs| ==> sigs[i] != sigs[j]
    ensures OnlySig(Instances(sigs), s) == if s in sigs then [Instance(s, 0)] else []
  {
    if sigs != [] {
      PlainOnly(sigs[1..], s);
      assert Instances(sigs)[1..] == Instances(sigs[1..]);
      assert s in sigs <==> s == sigs[0] || s in sigs[1..];
      if s in sigs[1..] {
        var j :| 0 <= j < |sigs[1..]| && sigs[1..][j] == s;
        assert sigs[j + 1] == s;
      }
    }
  }

  lemma {:induction false} RangeOnly(lo: int, hi: int, s: Sig)
    requires 1 <= lo <= hi <= 65
    ensures OnlySig(Range(lo, hi), s) == if lo <= s < hi then [Instance(s, 0)] else []
    decreases hi - lo
  {
    if lo < hi {
      RangeOnly(lo + 1, hi, s);
      assert Range(lo, hi)[1..] == Range(lo + 1, hi);
    }
  }

  /** Whatever the order of the sends, the service order is the ascending range. */
  lemma PermutationServed(perm: seq<Sig>, lo: int, hi: int)
    requires IsPermutation(perm, lo, hi)
    ensures ServiceOrder(Instances(perm)) == Range(lo, hi)
  {
    forall s: Sig ensures OnlySig(Range(lo, hi), s) == OnlySig(Instances(perm), s) {
      PlainOnly(perm, s);
      RangeOnly(lo, hi, s);
    }
    ServiceOrderIsStableSort(Instances(perm));
    StableSortIsUnique(Instances(perm), ServiceOrder(Instances(perm)), Range(lo, hi));
  }

  // ---------------------------------------------------------------- the invariant

  predicate Waiting(c: Conf, c0: Conf, perm: seq<Sig>) {
    && |c.toSend| <= |perm| && c.toSend == perm[|perm| - |c.toSend|..]
    && c.child == Queued(c0.child, Instances(perm[..|perm| - |c.toSend|]))
    && c.nowServicing == c0.nowServicing && c.serviced == 0
    && (c.stored ==> c.toSend == [])
    && (c.pc.Spinning? ==> (c.lock == 0 <==> c.stored))
    && (c.pc.Released? ==> c.stored)
  }

  /** The child between two handlers, or inside the one for `now`. */
  predicate ServiceState(s: State, now: int, hi: int)
    requires 1 <= now <= hi <= 65
  {
    if s.frames == [] then Serving(s) && ServiceOrder(s.pending) == Range(now, hi)
    else
      && InUserMode(s) && |s.frames| == 1 && now < hi && s.frames[0].inst.sig == now
      && Serving(ReturnFrom(s)) && ServiceOrder(ReturnFrom(s).pending) == Range(now + 1, hi)
  }

  predicate InService(c: Conf, lo: int, hi: int) {
    && c.stored && c.toSend == []
    && 1 <= lo <= c.nowServicing <= hi <= 65 && c.serviced == c.nowServicing - lo
    && ServiceState(c.child, c.nowServicing, hi)
  }

  predicate Safe(c: Conf, c0: Conf, perm: seq<Sig>, lo: int, hi: int) {
    && !c.failed
    && match c.pc
       case Spinning => Waiting(c, c0, perm)
       case Released => Waiting(c, c0, perm)
       case InHandlers => InService(c, lo, hi)
       case Done => c.stored && c.toSend == [] && c.serviced == hi - lo && c.nowServicing == hi
  }

  lemma WaitingAtFork(c: Conf, perm: seq<Sig>, lo: int, hi: int)
    requires Forked(c, lo, hi) && c.toSend == perm
    ensures Waiting(c, c, perm)
  {
    QueuedNothing(c.child);
    assert Instances(perm[..0]) == [];
    assert perm[0..] == perm;
  }

  lemma SentSoFar(c: Conf, c0: Conf, perm: seq<Sig>, lo: int, hi: int)
    requires Forked(c0, lo, hi) && IsPermutation(perm, lo, hi) && Waiting(c, c0, perm)
    ensures InUserMode(c.child)
    ensures c.toSend != [] ==> Waiting(Moved(c, ParentSends, lo, hi), c0, perm)
  {
    var k := |perm| - |c.toSend|;
    var xs := Instances(perm);
    assert xs[..k] == Instances(perm[..k]);
    forall j | 0 <= j < |xs| ensures xs[j].sig in c0.child.mask {
      assert perm[j] in perm;
    }
    QueuedIsQuiet(c0.child, xs[..k]);
    if c.toSend != [] {
      assert c.toSend[0] == perm[k] && perm[k] in perm;
      assert xs[..k + 1] == Instances(perm[..k + 1]);
      QueuedOneMore(c0.child, xs, k);
      SendBlocked(c.child, xs[k]);
    }
  }

  lemma ReleasedIsServing(c: Conf, c0: Conf, perm: seq<Sig>, lo: int, hi: int)
    requires Forked(c0, lo, hi) && IsPermutation(perm, lo, hi) && Waiting(c, c0, perm) && c.pc.Released?
    ensures CanMove(c, ChildUnblocks)
    ensures InService(Moved(c, ChildUnblocks, lo, hi), lo, hi)
  {
    SentSoFar(c, c0, perm, lo, hi);
    assert perm[..|perm|] == perm;
    var b := UnblockSome(c.child, FULL);
    assert b.pending == Instances(perm);
    forall i | 0 <= i < |b.pending| ensures lo <= b.pending[i].sig < hi {
      assert perm[i] in perm;
    }
    assert Serving(b);
    PermutationServed(perm, lo, hi);
  }

  lemma ServiceDeliver(s: State, now: int, hi: int) returns (t: State)
    requires 1 <= now <= hi <= 65 && ServiceState(s, now, hi) && CanDeliver(s)
    ensures t == DeliverNext(s) && ServiceState(t, now, hi)
    ensures |t.pending| < |s.pending| && |s.frames| == 0 && |t.frames| == 1
  {
    var x, d;
    t, x, d := ServingDeliver(s);
    RangeHead(now, hi, x, ServiceOrder(d.pending));
  }

  lemma RangeHead(lo: int, hi: int, x: Instance, rest: seq<Instance>)
    requires 1 <= lo <= hi <= 65 && Range(lo, hi) == [x] + rest
    ensures lo < hi && x.sig == lo && rest == Range(lo + 1, hi)
  {
    assert |Range(lo, hi)| == 1 + |rest| && Range(lo, hi)[0] == x;
    assert rest == ([x] + rest)[1..] == Range(lo, hi)[1..];
  }

  lemma WaitingStep(c: Conf, m: Move, c0: Conf, perm: seq<Sig>, lo: int, hi: int)
    requires Forked(c0, lo, hi) && IsPermutation(perm, lo, hi)
    requires Waiting(c, c0, perm) && !c.failed && (c.pc.Spinning? || c.pc.Released?) && CanMove(c, m)
    ensures Safe(Moved(c, m, lo, hi), c0, perm, lo, hi)
  {
    match m
    case ParentSends => SentSoFar(c, c0, perm, lo, hi);
    case ChildUnblocks => ReleasedIsServing(c, c0, perm, lo, hi);
    case _ =>
  }

  lemma CheckPasses(s: State, now: int, hi: int)
    requires 1 <= now <= hi <= 65 && ServiceState(s, now, hi) && s.frames == [] && !CanDeliver(s)
    ensures now == hi
  {
    if s.pending != [] { ServingPick(s); }
    assert |Range(now, hi)| == 0;
  }

  lemma ServiceStep(c: Conf, m: Move, c0: Conf, perm: seq<Sig>, lo: int, hi: int)
    requires InService(c, lo, hi) && !c.failed && c.pc.InHandlers? && CanMove(c, m)
    ensures Safe(Moved(c, m, lo, hi), c0, perm, lo, hi)
  {
    match m
    case KernelDelivers => var _ := ServiceDeliver(c.child, c.nowServicing, hi);
    case HandlerRuns =>
    case ChildChecks => CheckPasses(c.child, c.nowServicing, hi);
  }

  lemma SafeStep(c: Conf, m: Move, c0: Conf, perm: seq<Sig>, lo: int, hi: int)
    requires Forked(c0, lo, hi) && IsPermutation(perm, lo, hi)
    requires Safe(c, c0, perm, lo, hi) && CanMove(c, m)
    ensures Safe(Moved(c, m, lo, hi), c0, perm, lo, hi)
  {
    if c.pc.InHandlers? {
      ServiceStep(c, m, c0, perm, lo, hi);
    } else if !c.pc.Done? {
      WaitingStep(c, m, c0, perm, lo, hi);
    }
  }

  // ---------------------------------------------------------------- runs

  ghost predicate IsRun(run: seq<Conf>, moves: seq<Move>, lo: int, hi: int) {
    && |run| == |moves| + 1
    && forall i :: 0 <= i < |moves| ==> CanMove(run[i], moves[i]) && run[i + 1] == Moved(run[i], moves[i], lo, hi)
  }

  /** In every interleaving, for every permutation: no assertion of parent, child or handler fails,
      the child is past its spin loop only after all sends, and at the end all are serviced. */
  lemma {:induction false} EveryInterleavingServesAll(
      run: seq<Conf>, moves: seq<Move>, perm: seq<Sig>, lo: int, hi: int, i: nat)
    requires IsPermutation(perm, lo, hi) && IsRun(run, moves, lo, hi) && i < |run|
    requires Forked(run[0], lo, hi) && run[0].toSend == perm
    ensures Safe(run[i], run[0], perm, lo, hi)
    ensures !run[i].failed
    ensures !run[i].pc.Spinning? ==> run[i].toSend == [] && run[i].stored
    ensures run[i].pc.Done? ==> run[i].serviced == hi - lo && run[i].nowServicing == hi
  {
    if i == 0 {
      WaitingAtFork(run[0], perm, lo, hi);
    } else {
      EveryInterleavingServesAll(run, moves, perm, lo, hi, i - 1);
      SafeStep(run[i - 1], moves[i - 1], run[0], perm, lo, hi);
    }
  }

  /** Steps still to be taken, not counting idle turns of the spin loop. */
  function Remaining(c: Conf): nat {
    |c.toSend| + (if c.stored then 0 else 1)
    + match c.pc
      case Spinning => 4 + 2 * (|c.toSend| + |c.child.pending|)
      case Released => 3 + 2 * |c.child.pending|
      case InHandlers => 1 + 2 * |c.child.pending| + |c.child.frames|
      case Done => 0
  }

  predicate Idle(c: Conf, m: Move) {
    m.ChildSpins? && c.lock != 0
  }

  /** No interleaving gets stuck: until the child is done some step that is not an idle turn of the
      spin loop is possible, and every such step brings the end nearer. */
  lemma Progress(c: Conf, c0: Conf, perm: seq<Sig>, lo: int, hi: int)
    requires Forked(c0, lo, hi) && IsPermutation(perm, lo, hi) && Safe(c, c0, perm, lo, hi)
    ensures !c.pc.Done? ==> exists m :: CanMove(c, m) && !Idle(c, m)
    ensures forall m :: CanMove(c, m) && !Idle(c, m) ==> Remaining(Moved(c, m, lo, hi)) < Remaining(c)
  {
    if c.pc.Spinning? || c.pc.Released? {
      SentSoFar(c, c0, perm, lo, hi);
      if c.toSend != [] {
        assert CanMove(c, ParentSends);
        QueuedLength(c, c0, perm, lo, hi);
      } else if !c.stored {
        assert CanMove(c, ParentStores);
      } else if c.pc.Spinning? {
        assert CanMove(c, ChildSpins) && !Idle(c, ChildSpins);
      } else {
        assert CanMove(c, ChildUnblocks);
      }
    } else if c.pc.InHandlers? {
      if CanDeliver(c.child) {
        assert CanMove(c, KernelDelivers);
        var _ := ServiceDeliver(c.child, c.nowServicing, hi);
      } else if c.child.frames != [] {
        assert CanMove(c, HandlerRuns);
      } else {
        assert CanMove(c, ChildChecks);
      }
    }
  }

  lemma QueuedLength(c: Conf, c0: Conf, perm: seq<Sig>, lo: int, hi: int)
    requires Forked(c0, lo, hi) && IsPermutation(perm, lo, hi) && Waiting(c, c0, perm) && c.toSend != []
    ensures |SendTo(c.child, Instance(c.toSend[0], 0)).pending| <= |c.child.pending| + 1
  {
  }
}
