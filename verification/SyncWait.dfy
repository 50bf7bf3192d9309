/** `sigwait-sigpending` for any queue and any set: synchronous waits drain exactly the signals of
    the set, in service order, and leave everything else pending. */
module SyncWait {
  import opened Signals
  import opened Queue
  import opened Machine
  import opened Erasure

  /** The instances of `q` whose signal is in `m`, and the others. */
  function Wanted(q: seq<Instance>, m: set<Sig>): seq<Instance> {
    EraseQueue(q, FULL - m)
  }

  function Unwanted(q: seq<Instance>, m: set<Sig>): seq<Instance> {
    EraseQueue(q, m)
  }

  /** Among wanted instances only, nothing is left out. */
  lemma WantedAll(q: seq<Instance>, m: set<Sig>)
    ensures Pick(Wanted(q, m), {}) == Pick(Wanted(q, m), FULL - m)
  {
    var r := Wanted(q, m);
    forall j | 0 <= j < |r| ensures r[j].sig !in FULL - m {
      EraseQueueMember(q, FULL - m, r[j]);
    }
    if r != [] {
      assert r[0].sig !in FULL - m;
      NextIsUnique(r, {}, Pick(r, FULL - m));
    }
  }

  lemma WantedPick(q: seq<Instance>, m: set<Sig>)
    requires Pick(q, FULL - m) < |q|
    ensures var i := Pick(q, FULL - m);
            && q[i].sig in m
            && Unwanted(Remove(q, i), m) == Unwanted(q, m)
            && ServiceOrder(Wanted(q, m)) == [q[i]] + ServiceOrder(Wanted(Remove(q, i), m))
  {
    var i := Pick(q, FULL - m);
    assert q[i].sig in FULL;
    ErasePick(q, FULL - m, FULL - m);
    WantedAll(q, m);
    UnwantedRemove(q, m, i);
  }

  lemma UnwantedRemove(q: seq<Instance>, m: set<Sig>, i: nat)
    requires i < |q| && q[i].sig in m
    ensures Unwanted(Remove(q, i), m) == Unwanted(q, m)
  {
    EraseSplit(q, m, i);
    assert Unwanted(q[..i], m) + [] == Unwanted(q[..i], m);
  }

  lemma {:induction false} NothingWanted(q: seq<Instance>, m: set<Sig>)
    requires !Eligible(q, FULL - m)
    ensures Wanted(q, m) == [] && Unwanted(q, m) == q
  {
    if q != [] {
      assert q[0].sig in FULL - m;
      forall j | 0 <= j < |q[1..]| ensures q[1..][j].sig in FULL - m {
        assert q[1..][j] == q[j + 1];
      }
      NothingWanted(q[1..], m);
    }
  }

  class Waiter {
    ghost var waited: seq<Instance>

    constructor ()
      ensures waited == []
    {
      waited := [];
    }

    /** `sigwaitinfo(&m, &si)`, repeated until a wait times out with -EAGAIN. */
    method Drain(k0: State, m: set<Sig>) returns (k: State)
      requires InUserMode(k0) && waited == []
      modifies this
      ensures waited == ServiceOrder(Wanted(k0.pending, m))
      ensures k.pending == Unwanted(k0.pending, m)
      ensures k.regs.rax == -EAGAIN && k.mask == k0.mask && k.frames == k0.frames && InUserMode(k)
      ensures forall sig: Sig :: sig in PendingSet(k) <==> sig in PendingSet(k0) && sig !in m
    {
      k := k0;
      var empty := false;
      while !empty
        invariant InUserMode(k) && k.mask == k0.mask && k.frames == k0.frames
        invariant waited + ServiceOrder(Wanted(k.pending, m)) == ServiceOrder(Wanted(k0.pending, m))
        invariant Unwanted(k.pending, m) == Unwanted(k0.pending, m)
        invariant empty ==> k.regs.rax == -EAGAIN && !Eligible(k.pending, FULL - m)
        decreases !empty, |k.pending|
      {
        k, empty := WaitOnce(k, m);
      }
      NothingWanted(k.pending, m);
      assert waited + [] == waited;
      forall sig: Sig ensures sig in PendingSet(k) <==> sig in PendingSet(k0) && sig !in m {
        DrainedBits(k0, k, m, sig);
      }
    }

    /** One wait: the lowest signal of `m`, oldest first, with its payload, or a timeout. */
    method WaitOnce(k: State, m: set<Sig>) returns (t: State, empty: bool)
      requires InUserMode(k)
      modifies this
      ensures InUserMode(t) && t.mask == k.mask && t.frames == k.frames
      ensures waited + ServiceOrder(Wanted(t.pending, m)) == old(waited) + ServiceOrder(Wanted(k.pending, m))
      ensures Unwanted(t.pending, m) == Unwanted(k.pending, m)
      ensures empty <==> !Eligible(k.pending, FULL - m)
      ensures empty ==> t.regs.rax == -EAGAIN && t.pending == k.pending && waited == old(waited)
      ensures !empty ==>
                var i := Pick(k.pending, FULL - m);
                && i < |k.pending| && t.pending == Remove(k.pending, i)
                && waited == old(waited) + [k.pending[i]] && t.regs.rax == k.pending[i].sig
    {
      var i := Pick(k.pending, FULL - m);
      t := Next(k, WaitInfo(m));
      empty := i == |k.pending|;
      if !empty {
        WantedPick(k.pending, m);
        QuietAfterRemove(k.pending, k.mask, i);
        Associate(waited, k.pending[i], ServiceOrder(Wanted(t.pending, m)));
        waited := waited + [k.pending[i]];
      }
    }
  }

  lemma DrainedBits(k0: State, k: State, m: set<Sig>, sig: Sig)
    requires InUserMode(k0) && InUserMode(k) && k.pending == Unwanted(k0.pending, m)
    ensures sig in PendingSet(k) <==> sig in PendingSet(k0) && sig !in m
  {
    PendingSetIsQueue(k0, sig);
    PendingSetIsQueue(k, sig);
    OnlySigAbsent(k0.pending, sig);
    OnlySigAbsent(k.pending, sig);
    ErasedPending(k0.pending, m, sig);
  }

  lemma ErasedPending(q: seq<Instance>, m: set<Sig>, sig: Sig)
    ensures IsPending(EraseQueue(q, m), sig) <==> IsPending(q, sig) && sig !in m
  {
    if sig !in m {
      EraseIsPending(q, m, sig);
    } else if IsPending(EraseQueue(q, m), sig) {
      var r := EraseQueue(q, m);
      var j :| 0 <= j < |r| && r[j].sig == sig;
      EraseQueueMember(q, m, r[j]);
    }
  }
}
