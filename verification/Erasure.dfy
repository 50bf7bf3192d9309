/** Ignored signals leave no trace: a run with any number of them, sent anywhere, is simulated
    step by step by the same run without them. */
module Erasure {
  import opened Signals
  import opened Queue
  import opened Machine

  // ---------------------------------------------------------------- erasing

  function EraseQueue(q: seq<Instance>, ign: set<Sig>): seq<Instance> {
    if q == [] then []
    else (if q[0].sig in ign then [] else [q[0]]) + EraseQueue(q[1..], ign)
  }

  /** Handler entries stay: the handler trace is what the erasure must not change. */
  predicate Silent(e: Entry, ign: set<Sig>) {
    e.inst.sig in ign && e.fate != Handled
  }

  function EraseLog(log: seq<Entry>, ign: set<Sig>): seq<Entry> {
    if log == [] then []
    else EraseLog(log[..|log| - 1], ign) + (if Silent(log[|log| - 1], ign) then [] else [log[|log| - 1]])
  }

  function Erase(s: State, ign: set<Sig>): State {
    s.(pending := EraseQueue(s.pending, ign), log := EraseLog(s.log, ign))
  }

  /** The steps of `es` that remain: sends of ignored signals go, and so do the steps in which the
      kernel dequeues one only to discard it and put the thread back into its interrupted call. */
  predicate Vanishes(s: State, e: Event, ign: set<Sig>) {
    || (e.Send? && e.inst.sig in ign)
    || (e.Deliver? && CanDeliver(s) && s.pending[Pick(s.pending, s.mask)].sig in ign)
  }

  ghost function Erased(s: State, es: seq<Event>, ign: set<Sig>): seq<Event>
    requires Feasible(s, es)
    decreases |es|
  {
    if es == [] then []
    else (if Vanishes(s, es[0], ign) then [] else [es[0]]) + Erased(Next(s, es[0]), es[1..], ign)
  }

  // ---------------------------------------------------------------- queue and log lemmas

  lemma {:induction false} EraseQueueConcat(a: seq<Instance>, b: seq<Instance>, ign: set<Sig>)
    ensures EraseQueue(a + b, ign) == EraseQueue(a, ign) + EraseQueue(b, ign)
  {
    if a == [] {
      assert a + b == b;
    } else {
      assert (a + b)[1..] == a[1..] + b;
      EraseQueueConcat(a[1..], b, ign);
    }
  }

  lemma {:induction false} EraseQueueMember(q: seq<Instance>, ign: set<Sig>, x: Instance)
    ensures x in EraseQueue(q, ign) <==> x in q && x.sig !in ign
  {
    if q != [] {
      assert q == [q[0]] + q[1..];
      EraseQueueMember(q[1..], ign, x);
    }
  }

  lemma EraseSplit(q: seq<Instance>, ign: set<Sig>, i: nat)
    requires i < |q|
    ensures var x := q[i];
            var kept := if x.sig in ign then [] else [x];
            EraseQueue(q, ign) == EraseQueue(q[..i], ign) + kept + EraseQueue(q[i + 1..], ign)
    ensures EraseQueue(Remove(q, i), ign) == EraseQueue(q[..i], ign) + EraseQueue(q[i + 1..], ign)
  {
    var x := q[i];
    assert q == q[..i] + ([x] + q[i + 1..]);
    EraseQueueConcat(q[..i], [x] + q[i + 1..], ign);
    EraseQueueConcat([x], q[i + 1..], ign);
    assert EraseQueue([x], ign) == if x.sig in ign then [] else [x];
    EraseQueueConcat(q[..i], q[i + 1..], ign);
  }

  lemma EraseSubset(q: seq<Instance>, ign: set<Sig>)
    ensures forall j :: 0 <= j < |EraseQueue(q, ign)| ==> EraseQueue(q, ign)[j] in q
  {
    var r := EraseQueue(q, ign);
    forall j | 0 <= j < |r| ensures r[j] in q {
      EraseQueueMember(q, ign, r[j]);
    }
  }

  lemma EraseIsNext(q: seq<Instance>, ign: set<Sig>, blocked: set<Sig>, i: nat)
    requires IsNext(q, blocked, i) && q[i].sig !in ign
    ensures IsNext(EraseQueue(q, ign), blocked, |EraseQueue(q[..i], ign)|)
  {
    var r := EraseQueue(q, ign);
    var k := |EraseQueue(q[..i], ign)|;
    EraseSplit(q, ign, i);
    EraseSubset(q, ign);
    EraseSubset(q[..i], ign);
    assert r[k] == q[i];
    forall j | 0 <= j < k ensures r[j].sig != q[i].sig {
      assert r[j] == EraseQueue(q[..i], ign)[j];
    }
  }

  /** The erased queue picks the instance the full queue picks, when that one is not erased. */
  lemma ErasePick(q: seq<Instance>, ign: set<Sig>, blocked: set<Sig>)
    requires Pick(q, blocked) < |q| && q[Pick(q, blocked)].sig !in ign
    ensures var i := Pick(q, blocked);
            var r := EraseQueue(q, ign);
            var k := Pick(r, blocked);
            k < |r| && r[k] == q[i] && Remove(r, k) == EraseQueue(Remove(q, i), ign)
  {
    var i := Pick(q, blocked);
    var a, b := EraseQueue(q[..i], ign), EraseQueue(q[i + 1..], ign);
    EraseIsNext(q, ign, blocked, i);
    NextIsUnique(EraseQueue(q, ign), blocked, |a|);
    EraseSplit(q, ign, i);
    RemoveMiddle(a, q[i], b);
  }

  lemma RemoveMiddle(a: seq<Instance>, x: Instance, b: seq<Instance>)
    ensures Remove(a + [x] + b, |a|) == a + b
  {
    var r := a + [x] + b;
    assert r[..|a|] == a && r[|a| + 1..] == b;
  }

  lemma EraseNothingToPick(q: seq<Instance>, ign: set<Sig>, blocked: set<Sig>)
    requires !Eligible(q, blocked)
    ensures !Eligible(EraseQueue(q, ign), blocked)
  {
    EraseSubset(q, ign);
  }

  lemma EraseLogOne(log: seq<Entry>, e: Entry, ign: set<Sig>)
    ensures EraseLog(log + [e], ign) == if Silent(e, ign) then EraseLog(log, ign) else EraseLog(log, ign) + [e]
  {
    assert (log + [e])[..|log|] == log;
  }

  lemma EraseQueueHead(x: Instance, r: seq<Instance>, ign: set<Sig>)
    ensures EraseQueue([x] + r, ign) == (if x.sig in ign then [] else [x]) + EraseQueue(r, ign)
  {
    assert ([x] + r)[1..] == r;
  }

  lemma DropSigHead(x: Instance, r: seq<Instance>, sig: Sig)
    ensures DropSig([x] + r, sig) == (if x.sig == sig then [] else [x]) + DropSig(r, sig)
  {
    assert ([x] + r)[1..] == r;
  }

  lemma {:induction false} EraseDropSig(q: seq<Instance>, ign: set<Sig>, sig: Sig)
    requires sig !in ign
    ensures EraseQueue(DropSig(q, sig), ign) == DropSig(EraseQueue(q, ign), sig)
  {
    if q != [] {
      var x, rest := q[0], q[1..];
      EraseDropSig(rest, ign, sig);
      EraseQueueHead(x, DropSig(rest, sig), ign);
      DropSigHead(x, EraseQueue(rest, ign), sig);
      assert [] + DropSig(rest, sig) == DropSig(rest, sig);
      assert [] + EraseQueue(rest, ign) == EraseQueue(rest, ign);
    }
  }

  lemma {:induction false} EraseOnlySig(q: seq<Instance>, ign: set<Sig>, sig: Sig)
    requires sig !in ign
    ensures OnlySig(EraseQueue(q, ign), sig) == OnlySig(q, sig)
  {
    if q != [] {
      var x, rest := q[0], EraseQueue(q[1..], ign);
      EraseOnlySig(q[1..], ign, sig);
      assert ([x] + rest)[1..] == rest;
      assert [] + rest == rest;
    }
  }

  lemma {:induction false} EraseLogConcat(a: seq<Entry>, b: seq<Entry>, ign: set<Sig>)
    ensures EraseLog(a + b, ign) == EraseLog(a, ign) + EraseLog(b, ign)
  {
    if b == [] {
      assert a + b == a;
    } else {
      assert (a + b)[..|a + b| - 1] == a + b[..|b| - 1];
      EraseLogConcat(a, b[..|b| - 1], ign);
    }
  }

  lemma {:induction false} EraseDiscards(q: seq<Instance>, ign: set<Sig>)
    requires forall k :: 0 <= k < |q| ==> q[k].sig !in ign
    ensures EraseLog(AllDiscarded(q), ign) == AllDiscarded(q)
  {
    if q != [] {
      var e := Entry(Discarded, q[0]);
      EraseDiscards(q[1..], ign);
      EraseLogConcat([e], AllDiscarded(q[1..]), ign);
      EraseLogOne([], e, ign);
      assert [] + [e] == [e];
    }
  }

  lemma {:induction false} OnlySigAll(q: seq<Instance>, sig: Sig)
    ensures forall k :: 0 <= k < |OnlySig(q, sig)| ==> OnlySig(q, sig)[k].sig == sig
  {
    if q != [] {
      OnlySigAll(q[1..], sig);
    }
  }

  // ---------------------------------------------------------------- the simulation

  /** The signals of `ign` are ignored now. (KILL never is, in a state a thread can reach.) */
  ghost predicate AllIgnored(s: State, ign: set<Sig>) {
    SIGKILL !in ign && forall k :: k in ign ==> IsIgnored(s.actions, k)
  }

  /** A CONT acts on a stopped thread even when it is ignored. */
  predicate Wakes(s: State, x: Instance) {
    x.sig == SIGCONT && s.status.Stopped?
  }

  /** `sigtimedwait` on `m` would take an instance whose signal is in `ign`. */
  predicate Takes(s: State, m: set<Sig>, ign: set<Sig>) {
    var i := Pick(s.pending, FULL - m);
    i < |s.pending| && s.pending[i].sig in ign
  }

  /** Their dispositions stay, no CONT of theirs finds the thread stopped, and no wait takes one. */
  predicate StaysIgnored(s: State, e: Event, ign: set<Sig>) {
    && (e.Install? ==> e.sig !in ign)
    && (e.WaitInfo? ==> !Takes(s, e.sigs, ign))
    && (e.Send? && e.inst.sig in ign ==> !Wakes(s, e.inst))
  }

  lemma StepStaysIgnored(s: State, e: Event, ign: set<Sig>)
    requires Enabled(s, e) && AllIgnored(s, ign) && StaysIgnored(s, e, ign)
    ensures AllIgnored(Next(s, e), ign)
  {
    match e
    case Send(_) =>
    case Deliver => var x, f := DeliverShape(s);
    case WaitInfo(_) =>
    case Install(_, _) =>
    case _ => LocalStepShape(s, e);
  }

  lemma EraseIsPending(q: seq<Instance>, ign: set<Sig>, sig: Sig)
    requires sig !in ign
    ensures IsPending(EraseQueue(q, ign), sig) <==> IsPending(q, sig)
  {
    var r := EraseQueue(q, ign);
    if IsPending(q, sig) {
      var k :| 0 <= k < |q| && q[k].sig == sig;
      EraseQueueMember(q, ign, q[k]);
    }
    if IsPending(r, sig) {
      var k :| 0 <= k < |r| && r[k].sig == sig;
      EraseQueueMember(q, ign, r[k]);
    }
  }

  lemma EraseQueueOne(q: seq<Instance>, x: Instance, ign: set<Sig>)
    ensures EraseQueue(q + [x], ign) == if x.sig in ign then EraseQueue(q, ign) else EraseQueue(q, ign) + [x]
  {
    EraseQueueConcat(q, [x], ign);
    assert EraseQueue([x], ign) == if x.sig in ign then [] else [x];
  }

  /** An ignored signal leaves no trace when sent, unless it is a CONT and the thread is stopped;
      then it always does. */
  lemma IgnoredSendVanishes(s: State, x: Instance, ign: set<Sig>)
    requires AllIgnored(s, ign) && x.sig in ign
    ensures Erase(SendTo(s, x), ign) == Erase(s, ign) <==> !Wakes(s, x)
  {
    var t := SendTo(s, x);
    var log1 := s.log + [Entry(Sent, x)];
    EraseLogOne(s.log, Entry(Sent, x), ign);
    EraseLogOne(log1, Entry(Discarded, x), ign);
    EraseLogOne(log1, Entry(Coalesced, x), ign);
    EraseQueueOne(s.pending, x, ign);
    assert EraseLog(t.log, ign) == EraseLog(s.log, ign);
    assert EraseQueue(t.pending, ign) == EraseQueue(s.pending, ign);
  }

  lemma EraseLoudSend(s: State, x: Instance, ign: set<Sig>)
    requires x.sig !in ign
    ensures Erase(SendTo(s, x), ign) == SendTo(Erase(s, ign), x)
  {
    var fate := FateOfSend(s, x);
    EraseIsPending(s.pending, ign, x.sig);
    assert FateOfSend(Erase(s, ign), x) == fate;
    EraseLogOne(s.log, Entry(Sent, x), ign);
    if fate != Sent {
      EraseLogOne(s.log + [Entry(Sent, x)], Entry(fate, x), ign);
    } else {
      EraseQueueOne(s.pending, x, ign);
    }
  }

  lemma EraseDiscard(s: State, ign: set<Sig>)
    requires CanDeliver(s) && AllIgnored(s, ign)
    requires s.pending[Pick(s.pending, s.mask)].sig in ign
    ensures Erase(DeliverNext(s), ign) == Erase(s, ign)
  {
    var i := Pick(s.pending, s.mask);
    var x := s.pending[i];
    EraseQueueRemove(s.pending, ign, i);
    EraseLogOne(s.log, Entry(Discarded, x), ign);
    assert IsIgnored(s.actions, x.sig);
    assert DeliverNext(s) == s.(pending := Remove(s.pending, i), log := s.log + [Entry(Discarded, x)]);
  }

  lemma EraseQueueRemove(q: seq<Instance>, ign: set<Sig>, i: nat)
    requires i < |q| && q[i].sig in ign
    ensures EraseQueue(Remove(q, i), ign) == EraseQueue(q, ign)
  {
    EraseSplit(q, ign, i);
    assert EraseQueue(q[..i], ign) + [] == EraseQueue(q[..i], ign);
  }

  lemma PushFrame(s: State, x: Instance, a: Action, q: seq<Instance>, log: seq<Entry>)
    requires a.Handler?
    ensures Push(s.(pending := q, log := log), x, a) == Push(s, x, a).(pending := q, log := log + [Entry(Handled, x)])
  {
  }

  lemma EraseDeliver(s: State, ign: set<Sig>)
    requires CanDeliver(s)
    requires s.pending[Pick(s.pending, s.mask)].sig !in ign
    ensures CanDeliver(Erase(s, ign))
    ensures Erase(DeliverNext(s), ign) == DeliverNext(Erase(s, ign))
  {
    ErasePick(s.pending, ign, s.mask);
    var x, f := DeliverShape(s);
    EraseLogOne(s.log, Entry(f, x), ign);
    var rest := Remove(s.pending, Pick(s.pending, s.mask));
    var a := ActionOf(s.actions, x.sig);
    if f == Handled {
      PushFrame(s, x, a, rest, s.log);
      PushFrame(s, x, a, EraseQueue(rest, ign), EraseLog(s.log, ign));
      assert DeliverNext(s) == Push(s.(pending := rest), x, a);
      var u := s.(pending := EraseQueue(rest, ign), log := EraseLog(s.log, ign));
      assert DeliverNext(Erase(s, ign)) == Push(u, x, a);
    }
  }

  lemma EraseInstall(s: State, sig: Sig, a: Action, ign: set<Sig>)
    requires sig !in ign
    ensures Erase(InstallAction(s, sig, a), ign) == InstallAction(Erase(s, ign), sig, a)
  {
    var gone := OnlySig(s.pending, sig);
    EraseDropSig(s.pending, ign, sig);
    EraseOnlySig(s.pending, ign, sig);
    OnlySigAll(s.pending, sig);
    EraseDiscards(gone, ign);
    EraseLogConcat(s.log, AllDiscarded(gone), ign);
  }

  /** A wait does not notice the ignored signals unless it takes one of them; then it always does. */
  lemma WaitSeesNoIgnored(s: State, m: set<Sig>, ign: set<Sig>)
    ensures Erase(WaitFor(s, m), ign) == WaitFor(Erase(s, ign), m) <==> !Takes(s, m, ign)
  {
    var k := Pick(s.pending, FULL - m);
    if k == |s.pending| {
      EraseNothingToPick(s.pending, ign, FULL - m);
    } else if s.pending[k].sig !in ign {
      ErasePick(s.pending, ign, FULL - m);
      EraseLogOne(s.log, Entry(Waited, s.pending[k]), ign);
    } else {
      EraseResult(s, m, ign);
    }
  }

  /** In the erased run a wait never returns an erased signal. */
  lemma EraseResult(s: State, m: set<Sig>, ign: set<Sig>)
    ensures var r := WaitFor(Erase(s, ign), m).regs.rax;
            r == -EAGAIN || exists x: Sig :: x !in ign && r == x
  {
    var q := EraseQueue(s.pending, ign);
    var k := Pick(q, FULL - m);
    if k < |q| {
      EraseQueueMember(s.pending, ign, q[k]);
      assert q[k] in q;
    }
  }

  lemma EraseLocal(s: State, e: Event, ign: set<Sig>)
    requires Enabled(s, e) && IsLocal(e)
    ensures Enabled(Erase(s, ign), e)
    ensures Erase(Next(s, e), ign) == Next(Erase(s, ign), e)
  {
    if InUserMode(s) {
      EraseNothingToPick(s.pending, ign, s.mask);
    }
  }

  lemma EraseStep(s: State, e: Event, ign: set<Sig>)
    requires Enabled(s, e) && AllIgnored(s, ign) && StaysIgnored(s, e, ign)
    ensures Vanishes(s, e, ign) ==> Erase(Next(s, e), ign) == Erase(s, ign)
    ensures !Vanishes(s, e, ign) ==>
              Enabled(Erase(s, ign), e) && Erase(Next(s, e), ign) == Next(Erase(s, ign), e)
  {
    match e
    case Send(x) => if x.sig in ign { IgnoredSendVanishes(s, x, ign); } else { EraseLoudSend(s, x, ign); }
    case Deliver => if Vanishes(s, e, ign) { EraseDiscard(s, ign); } else { EraseDeliver(s, ign); }
    case WaitInfo(m) => EraseNothingToPick(s.pending, ign, s.mask); WaitSeesNoIgnored(s, m, ign);
    case Install(sig, a) => EraseNothingToPick(s.pending, ign, s.mask); EraseInstall(s, sig, a, ign);
    case _ => EraseLocal(s, e, ign);
  }

  /** Whatever ignored signals were sent along a run, and however late they were dequeued, the run
      without them is possible and ends in the same state, up to those signals themselves: the same
      handlers in the same order, the same frames, and asleep exactly when the full run is. */
  lemma {:induction false} IgnoredSignalsLeaveNoTrace(s: State, es: seq<Event>, ign: set<Sig>)
    requires AllIgnored(s, ign)
    requires Throughout(s, es, (t, e) => StaysIgnored(t, e, ign))
    ensures Feasible(s, es) && Feasible(Erase(s, ign), Erased(s, es, ign))
    ensures Exec(Erase(s, ign), Erased(s, es, ign)) == Erase(Exec(s, es), ign)
    decreases |es|
  {
    ThroughoutIsFeasible(s, es, (t, e) => StaysIgnored(t, e, ign));
    if es != [] {
      var e, t := es[0], Next(s, es[0]);
      StepStaysIgnored(s, e, ign);
      EraseStep(s, e, ign);
      IgnoredSignalsLeaveNoTrace(t, es[1..], ign);
      var rest := Erased(t, es[1..], ign);
      if Vanishes(s, e, ign) {
        assert Erased(s, es, ign) == rest;
      } else {
        assert Erased(s, es, ign) == [e] + rest;
        assert ([e] + rest)[1..] == rest;
      }
    }
  }

  // ---------------------------------------------------------------- a suspended child

  /** Sends of ignored signals, and the kernel's own steps, are all that happens. */
  predicate OnlyIgnoredArrive(e: Event, ign: set<Sig>) {
    (e.Send? && e.inst.sig in ign) || e.Deliver?
  }

  lemma {:induction false} NothingElseRemains(s: State, es: seq<Event>, ign: set<Sig>)
    requires s.status.Alive? && AllIgnored(s, ign) && EraseQueue(s.pending, ign) == []
    requires Throughout(s, es, (_, e) => OnlyIgnoredArrive(e, ign))
    ensures Feasible(s, es) && Erase(Exec(s, es), ign) == Erase(s, ign)
    ensures AllIgnored(Exec(s, es), ign)
    decreases |es|
  {
    ThroughoutIsFeasible(s, es, (_, e) => OnlyIgnoredArrive(e, ign));
    if es != [] {
      var e, t := es[0], Next(s, es[0]);
      if e.Deliver? {
        var k := Pick(s.pending, s.mask);
        EraseQueueMember(s.pending, ign, s.pending[k]);
        assert s.pending[k] in s.pending;
      }
      StepStaysIgnored(s, e, ign);
      EraseStep(s, e, ign);
      NothingElseRemains(t, es[1..], ign);
    }
  }

  /** A thread in `sigsuspend` stays there, alive and with no handler entered, however many ignored
      signals arrive or were already pending when it went to sleep; it is a KILL that ends it. */
  lemma {:induction false} IgnoredNeverEndSigsuspend(s: State, es: seq<Event>, ign: set<Sig>, value: int)
    requires AllIgnored(s, ign) && InUserMode(s) && EraseQueue(s.pending, ign) == []
    requires ActionOf(s.actions, SIGKILL) == Default
    requires var s1 := EnterSuspend(s, {}); Throughout(s1, es, (_, e) => OnlyIgnoredArrive(e, ign))
    ensures var s1 := EnterSuspend(s, {});
            && Feasible(s1, es)
            && var t := Exec(s1, es);
               && t.status.Alive? && t.sleep == InSuspend(s.mask) && t.frames == s.frames && t.regs == s1.regs
               && Settle(SendTo(t, Instance(SIGKILL, value))).status == Killed(SIGKILL)
  {
    var s1 := EnterSuspend(s, {});
    NothingElseRemains(s1, es, ign);
    var t := Exec(s1, es);
    var k := Instance(SIGKILL, value);
    assert Erase(t, ign) == Erase(s1, ign);
    assert EraseQueue(t.pending, ign) == [];
    assert !IsPending(t.pending, SIGKILL) by {
      if j :| 0 <= j < |t.pending| && t.pending[j].sig == SIGKILL {
        assert IsIgnored(t.actions, SIGKILL) ==> false;
        EraseQueueMember(t.pending, ign, t.pending[j]);
      }
    }
    var u := SendTo(t, k);
    assert u.pending == t.pending + [k];
    forall j | 0 <= j < |t.pending| ensures u.pending[j].sig in ign {
      EraseQueueMember(t.pending, ign, t.pending[j]);
      assert t.pending[j] in t.pending;
    }
    SettleToKill(u, ign);
  }

  lemma {:induction false} SettleToKill(s: State, ign: set<Sig>)
    requires s.status.Alive? && s.mask == {} && AllIgnored(s, ign)
    requires |s.pending| > 0 && s.pending[|s.pending| - 1].sig == SIGKILL
    requires ActionOf(s.actions, SIGKILL) == Default
    requires forall j :: 0 <= j < |s.pending| - 1 ==> s.pending[j].sig in ign
    ensures Settle(s).status == Killed(SIGKILL)
    decreases |s.pending|
  {
    var n := |s.pending| - 1;
    assert s.pending[n].sig !in s.mask;
    var i := Pick(s.pending, s.mask);
    if i < n {
      var t := DeliverNext(s);
      assert t.pending == Remove(s.pending, i);
      SettleToKill(t, ign);
    }
  }
}
