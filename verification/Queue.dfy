/** The pending store of a thread: one list in order of arrival, from which the kernel
    always takes the oldest instance of the lowest-numbered eligible signal. */
module Queue {
  import opened Signals

  /** One queued signal; `value` is the payload of `sigqueue`. */
  datatype Instance = Instance(sig: Sig, value: int)

  predicate Eligible(q: seq<Instance>, blocked: set<Sig>) {
    exists i :: 0 <= i < |q| && q[i].sig !in blocked
  }

  /** `i` is the oldest instance of the lowest-numbered signal of `q` outside `blocked`. */
  predicate IsNext(q: seq<Instance>, blocked: set<Sig>, i: int) {
    && 0 <= i < |q|
    && q[i].sig !in blocked
    && (forall j :: 0 <= j < |q| && q[j].sig !in blocked ==> q[i].sig <= q[j].sig)
    && (forall j :: 0 <= j < i ==> q[j].sig != q[i].sig)
  }

  /** The index of the next instance to take, or `|q|` when every one is blocked. */
  function Pick(q: seq<Instance>, blocked: set<Sig>): (i: nat)
    ensures i == |q| || IsNext(q, blocked, i)
    ensures i < |q| <==> Eligible(q, blocked)
  {
    if q == [] then 0
    else
      var n := |q| - 1;
      var rest := q[..n];
      var r := Pick(rest, blocked);
      assert forall j :: 0 <= j < n ==> rest[j] == q[j];
      if q[n].sig in blocked then
        if r == n then n + 1 else r
      else if r < n && q[r].sig <= q[n].sig then r
      else n
  }

  function Remove(q: seq<Instance>, i: int): (r: seq<Instance>)
    requires 0 <= i < |q|
    ensures |r| == |q| - 1
  {
    q[..i] + q[i + 1..]
  }

  lemma NextIsUnique(q: seq<Instance>, blocked: set<Sig>, i: int)
    requires IsNext(q, blocked, i)
    ensures Pick(q, blocked) == i
  {
    var k := Pick(q, blocked);
    assert q[k].sig == q[i].sig;
  }

  lemma RemoveMultiset(q: seq<Instance>, i: int)
    requires 0 <= i < |q|
    ensures multiset(Remove(q, i)) + multiset{q[i]} == multiset(q)
  {
    assert q == q[..i] + [q[i]] + q[i + 1..];
  }

  lemma QuietAfterRemove(q: seq<Instance>, blocked: set<Sig>, i: nat)
    requires i < |q| && !Eligible(q, blocked)
    ensures !Eligible(Remove(q, i), blocked)
  {
    var r := Remove(q, i);
    forall k | 0 <= k < |r| ensures r[k].sig in blocked {
      assert r[k] == q[if k < i then k else k + 1];
    }
  }

  lemma Associate(a: seq<Instance>, x: Instance, b: seq<Instance>)
    ensures a + [x] + b == a + ([x] + b)
  {
  }

  /** The FIFO queue of one signal: its instances in order of arrival. */
  function OnlySig(q: seq<Instance>, s: Sig): seq<Instance> {
    if q == [] then []
    else (if q[0].sig == s then [q[0]] else []) + OnlySig(q[1..], s)
  }

  lemma {:induction false} OnlySigConcat(a: seq<Instance>, b: seq<Instance>, s: Sig)
    ensures OnlySig(a + b, s) == OnlySig(a, s) + OnlySig(b, s)
  {
    if a == [] {
      assert a + b == b;
    } else {
      var head := if a[0].sig == s then [a[0]] else [];
      assert (a + b)[1..] == a[1..] + b;
      OnlySigConcat(a[1..], b, s);
      assert head + (OnlySig(a[1..], s) + OnlySig(b, s)) == head + OnlySig(a[1..], s) + OnlySig(b, s);
    }
  }

  lemma {:induction false} OnlySigAbsent(q: seq<Instance>, s: Sig)
    ensures OnlySig(q, s) == [] <==> forall i :: 0 <= i < |q| ==> q[i].sig != s
  {
    if q != [] {
      OnlySigAbsent(q[1..], s);
      if OnlySig(q, s) == [] {
        forall i | 0 <= i < |q| ensures q[i].sig != s {
          if 0 < i { assert q[i] == q[1..][i - 1]; }
        }
      } else if q[0].sig != s {
        var j :| 0 <= j < |q[1..]| && q[1..][j].sig == s;
        assert q[j + 1].sig == s;
      }
    }
  }

  /** Taking the next instance pops the head of its own queue and touches no other. */
  lemma TakePopsOneQueue(q: seq<Instance>, blocked: set<Sig>, i: int, s: Sig)
    requires IsNext(q, blocked, i)
    ensures s != q[i].sig ==> OnlySig(Remove(q, i), s) == OnlySig(q, s)
    ensures s == q[i].sig ==> OnlySig(q, s) == [q[i]] + OnlySig(Remove(q, i), s)
  {
    var a, b := q[..i], q[i + 1..];
    assert q == a + ([q[i]] + b);
    OnlySigConcat(a, [q[i]] + b, s);
    OnlySigConcat([q[i]], b, s);
    OnlySigConcat(a, b, s);
    assert OnlySig([q[i]], s) == if q[i].sig == s then [q[i]] else [];
    if s == q[i].sig {
      OnlySigAbsent(a, s);
    }
  }

  /** The order in which repeated takes empty `q`. */
  function ServiceOrder(q: seq<Instance>): seq<Instance>
    decreases |q|
  {
    if q == [] then []
    else
      assert q[0].sig !in {};
      var i := Pick(q, {});
      [q[i]] + ServiceOrder(Remove(q, i))
  }

  lemma {:induction false} ServiceOrderLength(q: seq<Instance>)
    ensures |ServiceOrder(q)| == |q|
    decreases |q|
  {
    if q != [] {
      assert q[0].sig !in {};
      ServiceOrderLength(Remove(q, Pick(q, {})));
    }
  }

  predicate Ascending(q: seq<Instance>) {
    forall i, j :: 0 <= i < j < |q| ==> q[i].sig <= q[j].sig
  }

  /** `r` is `q` sorted by signal number, instances of one signal keeping their order. */
  ghost predicate IsStableSort(q: seq<Instance>, r: seq<Instance>) {
    && Ascending(r)
    && forall s: Sig :: OnlySig(r, s) == OnlySig(q, s)
  }

  lemma {:induction false} OnlySigMember(q: seq<Instance>, x: Instance)
    ensures x in OnlySig(q, x.sig) <==> x in q
  {
    if q != [] {
      assert q == [q[0]] + q[1..];
      OnlySigMember(q[1..], x);
    }
  }

  lemma StableSortMembers(q: seq<Instance>, r: seq<Instance>)
    requires IsStableSort(q, r)
    ensures forall k :: 0 <= k < |r| ==> r[k] in q
  {
    forall k | 0 <= k < |r| ensures r[k] in q {
      assert OnlySig(r, r[k].sig) == OnlySig(q, r[k].sig);
      OnlySigMember(r, r[k]);
      OnlySigMember(q, r[k]);
    }
  }

  /** Nothing is left out of the service order. */
  lemma ServiceOrderMember(q: seq<Instance>, x: Instance)
    ensures x in q <==> x in ServiceOrder(q)
  {
    ServiceOrderIsStableSort(q);
    OnlySigMember(q, x);
    OnlySigMember(ServiceOrder(q), x);
    assert OnlySig(ServiceOrder(q), x.sig) == OnlySig(q, x.sig);
  }

  lemma TakeThenSort(q: seq<Instance>, i: int, r: seq<Instance>, s: Sig)
    requires IsNext(q, {}, i) && OnlySig(r, s) == OnlySig(Remove(q, i), s)
    ensures OnlySig([q[i]] + r, s) == OnlySig(q, s)
  {
    TakePopsOneQueue(q, {}, i, s);
    OnlySigConcat([q[i]], r, s);
    assert OnlySig([q[i]], s) == if q[i].sig == s then [q[i]] else [];
  }

  /** Repeatedly taking the lowest signal, oldest first, is the stable sort by number. */
  lemma {:induction false} ServiceOrderIsStableSort(q: seq<Instance>)
    ensures IsStableSort(q, ServiceOrder(q))
    decreases |q|
  {
    if q != [] {
      assert q[0].sig !in {};
      var i := Pick(q, {});
      var r := ServiceOrder(Remove(q, i));
      ServiceOrderIsStableSort(Remove(q, i));
      StableSortMembers(Remove(q, i), r);
      forall s: Sig ensures OnlySig([q[i]] + r, s) == OnlySig(q, s) {
        TakeThenSort(q, i, r, s);
      }
      forall k | 0 <= k < |r| ensures q[i].sig <= r[k].sig {
        assert r[k] in q;
      }
    }
  }

  /** There is only one stable sort, so the service order is determined by it. */
  lemma {:induction false} StableSortIsUnique(q: seq<Instance>, a: seq<Instance>, b: seq<Instance>)
    requires IsStableSort(q, a) && IsStableSort(q, b)
    ensures a == b
    decreases |a|
  {
    if b != [] {
      assert OnlySig(a, b[0].sig) == OnlySig(q, b[0].sig) == OnlySig(b, b[0].sig);
      OnlySigMember(a, b[0]);
      OnlySigMember(b, b[0]);
    }
    if a != [] {
      var m := a[0].sig;
      assert OnlySig(a, m) == OnlySig(q, m) == OnlySig(b, m);
      OnlySigMember(b, a[0]);
      assert b != [];
      var n := b[0].sig;
      assert OnlySig(b, n) == OnlySig(q, n) == OnlySig(a, n);
      OnlySigMember(a, b[0]);
      assert m <= n && n <= m by {
        var i :| 0 <= i < |a| && a[i] == b[0];
        var j :| 0 <= j < |b| && b[j] == a[0];
      }
      assert a[0] == OnlySig(a, m)[0] && b[0] == OnlySig(b, n)[0];
      assert a[0] == b[0];
      forall s: Sig ensures OnlySig(a[1..], s) == OnlySig(b[1..], s) {
        assert OnlySig(a, s) == OnlySig(q, s) == OnlySig(b, s);
        var head := if a[0].sig == s then [a[0]] else [];
        assert OnlySig(a, s) == head + OnlySig(a[1..], s);
        assert OnlySig(b, s) == head + OnlySig(b[1..], s);
        assert OnlySig(a[1..], s) == OnlySig(a, s)[|head|..];
        assert OnlySig(b[1..], s) == OnlySig(b, s)[|head|..];
      }
      StableSortIsUnique(a[1..], a[1..], b[1..]);
    }
  }
}
