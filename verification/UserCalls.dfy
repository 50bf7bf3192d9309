/** Loops the programs share: installing one action for many signals, and queueing signals for a
    thread that blocks them. */
module UserCalls {
  import opened Signals
  import opened Queue
  import opened Machine

  const USR1: Instance := Instance(SIGUSR1, 0)

  /** What `raise` or `kill` sends for each of `sigs`: instances without a payload. */
  function Instances(sigs: seq<Sig>): seq<Instance> {
    seq(|sigs|, i requires 0 <= i < |sigs| => Instance(sigs[i], 0))
  }

  /** Each instance joins the queue: it is realtime, or the first of its signal. */
  predicate AllQueue(q: seq<Instance>, xs: seq<Instance>) {
    forall i :: 0 <= i < |xs| && !Realtime(xs[i].sig) ==>
      !IsPending(q, xs[i].sig) && forall j :: 0 <= j < i ==> xs[j].sig != xs[i].sig
  }

  function SentAll(xs: seq<Instance>): seq<Entry> {
    seq(|xs|, i requires 0 <= i < |xs| => Entry(Sent, xs[i]))
  }

  lemma SendBlocked(s: State, x: Instance)
    requires InUserMode(s) && x.sig in s.mask
    requires Realtime(x.sig) || !IsPending(s.pending, x.sig)
    ensures SendTo(s, x) == s.(pending := s.pending + [x], log := s.log + [Entry(Sent, x)])
    ensures InUserMode(SendTo(s, x)) && Settle(SendTo(s, x)) == SendTo(s, x)
  {
    var t := SendTo(s, x);
    assert !Eligible(s.pending, s.mask);
    assert forall k :: 0 <= k < |t.pending| ==> t.pending[k].sig in s.mask;
  }

  /** `k` with `xs` sent to it while it blocks them. */
  function Queued(k: State, xs: seq<Instance>): State {
    k.(pending := k.pending + xs, log := k.log + SentAll(xs))
  }

  lemma QueuedNothing(k: State)
    ensures Queued(k, []) == k
  {
    assert k.pending + [] == k.pending && k.log + SentAll([]) == k.log;
  }

  lemma QueuedIsQuiet(k: State, xs: seq<Instance>)
    requires InUserMode(k) && forall i :: 0 <= i < |xs| ==> xs[i].sig in k.mask
    ensures InUserMode(Queued(k, xs))
  {
    assert !Eligible(k.pending, k.mask);
    var q := k.pending + xs;
    assert forall i :: 0 <= i < |q| ==> q[i].sig in k.mask;
  }

  lemma NotYetPending(q: seq<Instance>, xs: seq<Instance>, i: nat)
    requires i < |xs| && AllQueue(q, xs)
    ensures Realtime(xs[i].sig) || !IsPending(q + xs[..i], xs[i].sig)
  {
    var all := q + xs[..i];
    if !Realtime(xs[i].sig) {
      forall j | 0 <= j < |all| ensures all[j].sig != xs[i].sig {
        if |q| <= j { assert all[j] == xs[j - |q|]; }
      }
    }
  }

  lemma QueuedSnoc(k: State, xs: seq<Instance>, i: nat)
    requires i < |xs|
    ensures var t := Queued(k, xs[..i]);
            t.(pending := t.pending + [xs[i]], log := t.log + [Entry(Sent, xs[i])]) == Queued(k, xs[..i + 1])
  {
    assert k.pending + xs[..i] + [xs[i]] == k.pending + xs[..i + 1];
    assert k.log + SentAll(xs[..i]) + [Entry(Sent, xs[i])] == k.log + SentAll(xs[..i + 1]);
  }

  lemma QueuedOneMore(k: State, xs: seq<Instance>, i: nat)
    requires i < |xs| && InUserMode(k) && AllQueue(k.pending, xs)
    requires forall i :: 0 <= i < |xs| ==> xs[i].sig in k.mask
    ensures Settle(SendTo(Queued(k, xs[..i]), xs[i])) == Queued(k, xs[..i + 1])
  {
    QueuedIsQuiet(k, xs[..i]);
    NotYetPending(k.pending, xs, i);
    SendBlocked(Queued(k, xs[..i]), xs[i]);
    QueuedSnoc(k, xs, i);
  }

  /** Signals a thread has blocked pile up in the order they are sent. */
  method QueueAll(k: State, xs: seq<Instance>) returns (t: State)
    requires InUserMode(k) && AllQueue(k.pending, xs)
    requires forall i :: 0 <= i < |xs| ==> xs[i].sig in k.mask
    ensures t == Queued(k, xs) && InUserMode(t)
  {
    t := k;
    QueuedNothing(k);
    assert xs[..0] == [];
    for i := 0 to |xs|
      invariant t == Queued(k, xs[..i])
    {
      QueuedOneMore(k, xs, i);
      t := Settle(SendTo(t, xs[i]));
    }
    assert xs[..|xs|] == xs;
    QueuedIsQuiet(k, xs);
  }

  // ---------------------------------------------------------------- any sends

  /** What sends of `xs` to a thread that blocks them leave pending on top of `q`: a standard signal
      that is pending already absorbs a further one. */
  function Accepted(q: seq<Instance>, xs: seq<Instance>): seq<Instance> {
    if xs == [] then q
    else Accept(Accepted(q, xs[..|xs| - 1]), xs[|xs| - 1])
  }

  lemma {:induction false} AcceptedMember(q: seq<Instance>, xs: seq<Instance>, x: Instance)
    requires x in Accepted(q, xs)
    ensures x in q || x in xs
  {
    if xs != [] && x != xs[|xs| - 1] {
      AcceptedMember(q, xs[..|xs| - 1], x);
    }
  }

  lemma OnlySigSnoc(q: seq<Instance>, x: Instance, s: Sig)
    ensures OnlySig(q + [x], s) == if x.sig == s then OnlySig(q, s) + [x] else OnlySig(q, s)
  {
    OnlySigConcat(q, [x], s);
    assert OnlySig([x], s) == if x.sig == s then [x] else [];
  }

  /** Of signal `s`, `r` keeps what a store keeps of `xs`: all instances if it is realtime, else the first. */
  predicate Keeps(r: seq<Instance>, xs: seq<Instance>, s: Sig) {
    var all := OnlySig(xs, s);
    OnlySig(r, s) == if Realtime(s) || all == [] then all else [all[0]]
  }

  function Accept(r: seq<Instance>, x: Instance): seq<Instance> {
    if !Realtime(x.sig) && IsPending(r, x.sig) then r else r + [x]
  }

  lemma AcceptKeeps(r: seq<Instance>, xs: seq<Instance>, x: Instance, s: Sig)
    requires Keeps(r, xs, s)
    ensures Keeps(Accept(r, x), xs + [x], s)
  {
    OnlySigSnoc(xs, x, s);
    OnlySigSnoc(r, x, s);
    OnlySigAbsent(r, s);
  }

  /** All instances of a realtime signal are left, of a standard signal the first. */
  lemma {:induction false} AcceptedOnly(xs: seq<Instance>, s: Sig)
    ensures Keeps(Accepted([], xs), xs, s)
  {
    if xs != [] {
      var n := |xs| - 1;
      AcceptedOnly(xs[..n], s);
      AcceptKeeps(Accepted([], xs[..n]), xs[..n], xs[n], s);
      assert xs == xs[..n] + [xs[n]];
    }
  }

  /** Sends of which none is absorbed are all left. */
  lemma {:induction false} AcceptedAll(xs: seq<Instance>)
    requires AllQueue([], xs)
    ensures Accepted([], xs) == xs
  {
    if xs != [] {
      var n := |xs| - 1;
      AcceptedAll(xs[..n]);
      NotYetPending([], xs, n);
      assert [] + xs[..n] == xs[..n] && xs[..n] + [xs[n]] == xs;
    }
  }

  lemma SendAnyBlocked(k: State, x: Instance, xs: seq<Instance>, i: nat, q: seq<Instance>)
    requires InUserMode(k) && i < |xs| && x == xs[i] && x.sig in k.mask && k.pending == Accepted(q, xs[..i])
    ensures var t := Settle(SendTo(k, x));
            InUserMode(t) && t == k.(pending := Accepted(q, xs[..i + 1]), log := t.log)
  {
    var t := SendTo(k, x);
    assert xs[..i + 1][..i] == xs[..i] && xs[..i + 1][i] == x;
    assert !Eligible(k.pending, k.mask);
    assert forall j :: 0 <= j < |t.pending| ==> t.pending[j].sig in k.mask;
    SettleQuiet(t);
  }

  /** Any sends to a thread that blocks them. */
  method SendAll(k: State, xs: seq<Instance>) returns (t: State)
    requires InUserMode(k) && forall i :: 0 <= i < |xs| ==> xs[i].sig in k.mask
    ensures InUserMode(t) && t == k.(pending := Accepted(k.pending, xs), log := t.log)
  {
    t := k;
    for i := 0 to |xs|
      invariant InUserMode(t) && t == k.(pending := Accepted(k.pending, xs[..i]), log := t.log)
    {
      SendAnyBlocked(t, xs[i], xs, i, k.pending);
      t := Settle(SendTo(t, xs[i]));
    }
    assert xs[..|xs|] == xs;
  }

  // ---------------------------------------------------------------- handlers

  /** `sigaction` for each signal of `sigs`, none of them KILL or STOP. */
  method InstallAll(k: State, sigs: seq<Sig>, a: Action) returns (t: State)
    requires InUserMode(k) && k.pending == [] && a.Handler? && a.saMask !! UNBLOCKABLE
    requires forall i :: 0 <= i < |sigs| ==> sigs[i] !in UNBLOCKABLE
    ensures InUserMode(t)
    ensures t == k.(actions := t.actions, regs := k.regs.(rax := if sigs == [] then k.regs.rax else 0))
    ensures forall s: Sig :: ActionOf(t.actions, s) == if s in sigs then a else ActionOf(k.actions, s)
  {
    t := k;
    for i := 0 to |sigs|
      invariant InUserMode(t)
      invariant t == k.(actions := t.actions, regs := k.regs.(rax := if i == 0 then k.regs.rax else 0))
      invariant forall s: Sig :: ActionOf(t.actions, s) == if s in sigs[..i] then a else ActionOf(k.actions, s)
    {
      assert Filter(a.saMask) == a.saMask;
      assert sigs[..i + 1] == sigs[..i] + [sigs[i]];
      t := InstallAction(t, sigs[i], a);
    }
    assert sigs[..|sigs|] == sigs;
  }

  // ---------------------------------------------------------------- a single signal

  lemma DeliverOnly(s: State, x: Instance)
    requires s.status.Alive? && s.pending == [x]
    ensures CanDeliver(s) <==> x.sig !in s.mask
    ensures CanDeliver(s) && ActionOf(s.actions, x.sig).Handler? ==>
              var t := DeliverNext(s);
              && t == Push(s.(pending := []), x, ActionOf(s.actions, x.sig))
              && InUserMode(t)
  {
    assert s.pending[0].sig == x.sig;
    if CanDeliver(s) {
      assert Remove(s.pending, 0) == [];
      assert !Eligible([], s.mask);
      if ActionOf(s.actions, x.sig).Handler? { DeliverHandler(s); }
    }
  }

  lemma SendOnly(s: State, x: Instance)
    requires s.status.Alive? && s.pending == []
    requires x.sig in s.mask || ActionOf(s.actions, x.sig).Handler?
    ensures SendTo(s, x) == s.(pending := [x], log := s.log + [Entry(Sent, x)])
  {
    assert s.pending + [x] == [x];
  }

  /** `raise` of an unblocked signal with a handler: its frame is up before `raise` returns. */
  lemma RaiseOpen(s: State, x: Instance)
    requires InUserMode(s) && s.pending == [] && x.sig !in s.mask
    requires ActionOf(s.actions, x.sig).Handler?
    ensures Settle(SendTo(s, x)) == Push(s.(log := s.log + [Entry(Sent, x)]), x, ActionOf(s.actions, x.sig))
    ensures InUserMode(Settle(SendTo(s, x)))
  {
    SendOnly(s, x);
    var t := SendTo(s, x);
    DeliverOnly(t, x);
    SettleStep(t);
    assert t.(pending := []) == s.(log := s.log + [Entry(Sent, x)]);
    SettleQuiet(DeliverNext(t));
  }

  lemma SettleQuiet(s: State)
    requires !CanDeliver(s)
    ensures Settle(s) == s
  {
  }
}
