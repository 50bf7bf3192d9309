/** Disposition tables: threads of one process hold references to one table object, `fork` copies
    it. The heap of shared tables is proved to behave like one private table per process, with one
    mask per thread. */
module Tables {
  import opened Signals
  import opened Machine

  // ---------------------------------------------------------------- one table per process

  datatype Thread = Thread(pid: nat, mask: set<Sig>)

  /** The simple picture: a list of threads, and a table for each process. */
  datatype View = View(threads: seq<Thread>, tables: map<nat, map<Sig, Action>>, nextPid: nat)

  datatype How = BlockSet | UnblockSet | SetTo

  datatype Op =
    | Clone(t: nat)
    | Fork(t: nat)
    | Sigaction(t: nat, sig: Sig, action: Action)
    | Sigmask(t: nat, how: How, sigs: set<Sig>)

  predicate ViewOk(v: View) {
    && (forall t :: 0 <= t < |v.threads| ==> v.threads[t].pid in v.tables)
    && (forall p :: p in v.tables ==> p < v.nextPid)
  }

  function ChangeMask(m: set<Sig>, how: How, sigs: set<Sig>): set<Sig> {
    match how
    case BlockSet => m + Filter(sigs)
    case UnblockSet => m - sigs
    case SetTo => Filter(sigs)
  }

  function Performed(v: View, op: Op): View
    requires op.t < |v.threads| && ViewOk(v)
  {
    var me := v.threads[op.t];
    match op
    case Clone(_) => v.(threads := v.threads + [me])
    case Fork(_) =>
      View(v.threads + [Thread(v.nextPid, me.mask)], v.tables[v.nextPid := v.tables[me.pid]], v.nextPid + 1)
    case Sigaction(_, sig, a) =>
      var table: map<Sig, Action> := v.tables[me.pid];
      if sig in UNBLOCKABLE then v else v.(tables := v.tables[me.pid := table[sig := a]])
    case Sigmask(_, how, sigs) =>
      v.(threads := v.threads[op.t := me.(mask := ChangeMask(me.mask, how, sigs))])
  }

  lemma PerformedOk(v: View, op: Op)
    requires ViewOk(v) && op.t < |v.threads|
    ensures ViewOk(Performed(v, op))
    ensures |Performed(v, op).threads| == |v.threads| + (if op.Clone? || op.Fork? then 1 else 0)
    ensures forall t :: 0 <= t < |v.threads| ==> Performed(v, op).threads[t].pid == v.threads[t].pid
  {
  }

  /** The calls of `ops` are made by threads that exist by then. */
  predicate Possible(n: nat, ops: seq<Op>)
    decreases |ops|
  {
    ops == [] || (ops[0].t < n && Possible(if ops[0].Clone? || ops[0].Fork? then n + 1 else n, ops[1..]))
  }

  ghost function Run(v: View, ops: seq<Op>): View
    requires ViewOk(v) && Possible(|v.threads|, ops)
    decreases |ops|
  {
    if ops == [] then v else (PerformedOk(v, ops[0]); Run(Performed(v, ops[0]), ops[1..]))
  }

  // ---------------------------------------------------------------- own history

  datatype Change = Change(sig: Sig, action: Action)

  function Apply(table: map<Sig, Action>, cs: seq<Change>): map<Sig, Action>
    decreases |cs|
  {
    if cs == [] then table
    else Apply(if cs[0].sig in UNBLOCKABLE then table else table[cs[0].sig := cs[0].action], cs[1..])
  }

  /** The `sigaction` calls made along a run by threads of process `p`. */
  ghost function Changes(v: View, ops: seq<Op>, p: nat): seq<Change>
    requires ViewOk(v) && Possible(|v.threads|, ops)
    decreases |ops|
  {
    if ops == [] then []
    else
      PerformedOk(v, ops[0]);
      (if ops[0].Sigaction? && v.threads[ops[0].t].pid == p then [Change(ops[0].sig, ops[0].action)] else [])
      + Changes(Performed(v, ops[0]), ops[1..], p)
  }

  /** Whether thread `t` blocks `k` after a run, if it did before: the last of its own calls that says
      something about `k` decides. */
  function BlockedAfter(before: bool, ops: seq<Op>, t: nat, k: Sig): bool
    decreases |ops|
  {
    if ops == [] then before
    else
      var o := ops[0];
      var now :=
        if !o.Sigmask? || o.t != t then before
        else
          match o.how
          case BlockSet => before || (k in o.sigs && k != SIGKILL && k != SIGSTOP)
          case UnblockSet => before && k !in o.sigs
          case SetTo => k in o.sigs && k != SIGKILL && k != SIGSTOP;
      BlockedAfter(now, ops[1..], t, k)
  }

  /** Over any run, the table of a process is what its own threads' calls make of the table it had:
      each of their changes is there for all of them, and no other process has any part in it. */
  lemma {:induction false} TableIsOwnHistory(v: View, ops: seq<Op>, p: nat)
    requires ViewOk(v) && Possible(|v.threads|, ops) && p in v.tables
    ensures p in Run(v, ops).tables
    ensures Run(v, ops).tables[p] == Apply(v.tables[p], Changes(v, ops, p))
    decreases |ops|
  {
    if ops != [] {
      var w := Performed(v, ops[0]);
      PerformedOk(v, ops[0]);
      assert p < v.nextPid;
      TableIsOwnHistory(w, ops[1..], p);
      var rest := Changes(w, ops[1..], p);
      if ops[0].Sigaction? && v.threads[ops[0].t].pid == p {
        var c := Change(ops[0].sig, ops[0].action);
        assert ([c] + rest)[1..] == rest;
      } else {
        assert [] + rest == rest;
      }
    }
  }

  /** Over any run, the mask of a thread is what its own calls make of the mask it had, signal by signal. */
  lemma {:induction false} MaskIsOwnHistory(v: View, ops: seq<Op>, t: nat)
    requires ViewOk(v) && Possible(|v.threads|, ops) && t < |v.threads|
    ensures t < |Run(v, ops).threads| && Run(v, ops).threads[t].pid == v.threads[t].pid
    ensures forall k: Sig :: k in Run(v, ops).threads[t].mask <==> BlockedAfter(k in v.threads[t].mask, ops, t, k)
    decreases |ops|
  {
    if ops != [] {
      PerformedOk(v, ops[0]);
      MaskIsOwnHistory(Performed(v, ops[0]), ops[1..], t);
    }
  }

  /** A thread or process is born with its creator's mask, a process also with a copy of its
      creator's table; from then on both depend on its own calls only. */
  lemma {:induction false} BornLikeItsCreator(v: View, op: Op, ops: seq<Op>)
    requires ViewOk(v) && (op.Clone? || op.Fork?) && op.t < |v.threads|
    requires Possible(|v.threads| + 1, ops)
    ensures ViewOk(Performed(v, op)) && |Performed(v, op).threads| == |v.threads| + 1
    ensures var child := |v.threads|;
            var w := Performed(v, op);
            var end := Run(w, ops);
            var me := v.threads[op.t];
            && child < |end.threads|
            && (forall k: Sig :: k in end.threads[child].mask <==> BlockedAfter(k in me.mask, ops, child, k))
            && (op.Clone? ==> end.threads[child].pid == me.pid)
            && (op.Fork? ==>
                  && v.nextPid in end.tables && end.threads[child].pid == v.nextPid != me.pid
                  && end.tables[v.nextPid] == Apply(v.tables[me.pid], Changes(w, ops, v.nextPid)))
  {
    PerformedOk(v, op);
    var w := Performed(v, op);
    MaskIsOwnHistory(w, ops, |v.threads|);
    if op.Fork? {
      TableIsOwnHistory(w, ops, v.nextPid);
    }
  }

  lemma {:induction false} UntouchedEntry(table: map<Sig, Action>, cs: seq<Change>, sig: Sig)
    requires forall k :: 0 <= k < |cs| ==> cs[k].sig != sig
    ensures ActionOf(Apply(table, cs), sig) == ActionOf(table, sig)
    decreases |cs|
  {
    if cs != [] {
      UntouchedEntry(if cs[0].sig in UNBLOCKABLE then table else table[cs[0].sig := cs[0].action], cs[1..], sig);
    }
  }

  /** A handler installed by one thread is what every thread of its process finds from then on,
      also one created later, until the process changes that signal again; to any other process
      the call makes no difference at all. */
  lemma ChangeSeenBySiblingsOnly(v: View, t: nat, sig: Sig, a: Action, ops: seq<Op>, u: nat)
    requires ViewOk(v) && t < |v.threads| && sig !in UNBLOCKABLE && Possible(|v.threads|, ops)
    requires ViewOk(Performed(v, Sigaction(t, sig, a)))
    requires var own := Changes(Performed(v, Sigaction(t, sig, a)), ops, v.threads[t].pid);
             forall k :: 0 <= k < |own| ==> own[k].sig != sig
    requires u < |Run(Performed(v, Sigaction(t, sig, a)), ops).threads|
    ensures var w := Performed(v, Sigaction(t, sig, a));
            var end := Run(w, ops);
            var p := end.threads[u].pid;
            && (p == v.threads[t].pid ==> p in end.tables && ActionOf(end.tables[p], sig) == a)
            && (p != v.threads[t].pid && p in v.tables ==>
                  p in end.tables && end.tables[p] == Apply(v.tables[p], Changes(w, ops, p)))
  {
    var w := Performed(v, Sigaction(t, sig, a));
    var p := Run(w, ops).threads[u].pid;
    if p in v.tables {
      TableIsOwnHistory(w, ops, p);
      if p == v.threads[t].pid {
        UntouchedEntry(w.tables[p], Changes(w, ops, p), sig);
      }
    }
  }

  // ---------------------------------------------------------------- the heap of tables

  class SignalTable {
    var actions: map<Sig, Action>

    constructor (actions: map<Sig, Action>)
      ensures this.actions == actions
    {
      this.actions := actions;
    }
  }

  class Task {
    const pid: nat
    const table: SignalTable
    var mask: set<Sig>

    constructor (pid: nat, table: SignalTable, mask: set<Sig>)
      ensures this.pid == pid && this.table == table && this.mask == mask
    {
      this.pid, this.table, this.mask := pid, table, mask;
    }
  }

  /** `v` is the simple picture of a heap: every task refers to the table object of its process,
      processes never share one, and `repr` holds all of them. */
  ghost predicate Pictures(
      tasks: seq<Task>, nextPid: nat, heap: map<nat, SignalTable>, repr: set<object>, v: View)
    reads tasks, heap.Values
  {
    && (forall i, j :: 0 <= i < j < |tasks| ==> tasks[i] != tasks[j])
    && (forall i :: 0 <= i < |tasks| ==>
          tasks[i].pid < nextPid && tasks[i].pid in heap && tasks[i].table == heap[tasks[i].pid])
    && (forall p :: p in heap ==> p < nextPid)
    && (forall p, q :: p in heap && q in heap && p != q ==> heap[p] != heap[q])
    && (forall i :: 0 <= i < |tasks| ==> tasks[i] in repr)
    && (forall p :: p in heap ==> heap[p] in repr)
    && ViewOk(v) && v.nextPid == nextPid && |v.threads| == |tasks|
    && (forall i :: 0 <= i < |tasks| ==> v.threads[i] == Thread(tasks[i].pid, tasks[i].mask))
    && v.tables.Keys == heap.Keys
    && (forall p :: p in heap ==> v.tables[p] == heap[p].actions)
  }

  lemma ForkPictures(
      tasks: seq<Task>, nextPid: nat, heap: map<nat, SignalTable>, repr: set<object>, v: View,
      t: nat, copy: SignalTable, child: Task)
    requires Pictures(tasks, nextPid, heap, repr, v) && t < |tasks|
    requires copy !in repr && child !in repr
    requires copy.actions == tasks[t].table.actions
    requires child.pid == nextPid && child.table == copy && child.mask == tasks[t].mask
    ensures var w := Performed(v, Op.Fork(t));
            Pictures(tasks + [child], nextPid + 1, heap[nextPid := copy], repr + {child, copy}, w)
  {
    PerformedOk(v, Op.Fork(t));
  }

  class System {
    var tasks: seq<Task>
    var nextPid: nat
    ghost var heap: map<nat, SignalTable>  // the table object of each process
    ghost var repr: set<object>  // all tasks and tables

    ghost predicate Shows(v: View)
      reads this, tasks, heap.Values
    {
      this !in repr && Pictures(tasks, nextPid, heap, repr, v)
    }

    constructor (mask: set<Sig>)
      ensures Shows(View([Thread(0, mask)], map[0 := map[]], 1))
      ensures fresh(repr)
    {
      var table := new SignalTable(map[]);
      var first := new Task(0, table, mask);
      tasks, nextPid, heap, repr := [first], 1, map[0 := table], {first, table};
    }

    /** `sigaction(sig, nullptr, &old)` in task `t`. */
    method Query(t: nat, sig: Sig, ghost v: View) returns (a: Action)
      requires Shows(v) && t < |tasks|
      ensures v.threads[t].pid in v.tables && a == ActionOf(v.tables[v.threads[t].pid], sig)
    {
      a := ActionOf(tasks[t].table.actions, sig);
    }

    /** `sigprocmask(SIG_SETMASK, nullptr, &old)` in task `t`. */
    method QueryMask(t: nat, ghost v: View) returns (mask: set<Sig>)
      requires Shows(v) && t < |tasks|
      ensures mask == v.threads[t].mask
    {
      mask := tasks[t].mask;
    }

    method Sigaction(t: nat, sig: Sig, a: Action, ghost v: View)
      requires Shows(v) && t < |tasks|
      modifies tasks[t].table
      ensures Shows(Performed(v, Op.Sigaction(t, sig, a)))
    {
      if sig !in UNBLOCKABLE {
        tasks[t].table.actions := tasks[t].table.actions[sig := a];
      }
    }

    method Sigmask(t: nat, how: How, sigs: set<Sig>, ghost v: View)
      requires Shows(v) && t < |tasks|
      modifies tasks[t]
      ensures Shows(Performed(v, Op.Sigmask(t, how, sigs)))
    {
      tasks[t].mask := ChangeMask(tasks[t].mask, how, sigs);
    }

    /** `pthread_create`: the new task refers to the creator's table. */
    method Clone(t: nat, ghost v: View)
      requires Shows(v) && t < |tasks|
      modifies this
      ensures |tasks| == |old(tasks)| + 1 && tasks[..|old(tasks)|] == old(tasks) && heap == old(heap)
      ensures fresh(tasks[|old(tasks)|]) && repr == old(repr) + {tasks[|old(tasks)|]}
      ensures Shows(Performed(v, Op.Clone(t)))
    {
      var child := new Task(tasks[t].pid, tasks[t].table, tasks[t].mask);
      tasks, repr := tasks + [child], repr + {child};
    }

    /** `fork`: the new task gets a table of its own, filled from the creator's. */
    method Fork(t: nat, ghost v: View)
      requires Shows(v) && t < |tasks|
      modifies this
      ensures |tasks| == |old(tasks)| + 1 && tasks[..|old(tasks)|] == old(tasks)
      ensures fresh(tasks[|old(tasks)|]) && fresh(tasks[|old(tasks)|].table)
      ensures heap == old(heap)[old(nextPid) := tasks[|old(tasks)|].table]
      ensures repr == old(repr) + {tasks[|old(tasks)|], tasks[|old(tasks)|].table}
      ensures Shows(Performed(v, Op.Fork(t)))
    {
      var copy := new SignalTable(tasks[t].table.actions);
      var child := new Task(nextPid, copy, tasks[t].mask);
      Adopt(t, copy, child, v);
    }

    /** Puts a new process and its first task in place. */
    method Adopt(t: nat, copy: SignalTable, child: Task, ghost v: View)
      requires Shows(v) && t < |tasks| && copy !in repr && child !in repr
      requires copy.actions == tasks[t].table.actions
      requires child.pid == nextPid && child.table == copy && child.mask == tasks[t].mask
      modifies this
      ensures tasks == old(tasks) + [child] && nextPid == old(nextPid) + 1
      ensures heap == old(heap)[old(nextPid) := copy] && repr == old(repr) + {child, copy}
      ensures Shows(Performed(v, Op.Fork(t)))
    {
      ForkPictures(tasks, nextPid, heap, repr, v, t, copy, child);
      heap := heap[nextPid := copy];
      tasks, nextPid, repr := tasks + [child], nextPid + 1, repr + {child, copy};
    }

    method Perform(op: Op, ghost v: View)
      requires Shows(v) && op.t < |tasks|
      modifies this, repr
      ensures Shows(Performed(v, op)) && fresh(repr - old(repr))
      ensures !op.Clone? && !op.Fork? ==> repr == old(repr)
    {
      match op
      case Clone(t) => Clone(t, v);
      case Fork(t) => Fork(t, v);
      case Sigaction(t, sig, a) => Sigaction(t, sig, a, v);
      case Sigmask(t, how, sigs) => Sigmask(t, how, sigs, v);
    }

    /** Any run on the heap of shared tables shows the run on private tables. */
    method PerformAll(ops: seq<Op>, ghost v: View)
      requires Shows(v) && Possible(|tasks|, ops)
      modifies this, repr
      ensures ViewOk(v) && Possible(|v.threads|, ops) && Shows(Run(v, ops))
      decreases |ops|
    {
      if ops != [] {
        PerformedOk(v, ops[0]);
        Perform(ops[0], v);
        PerformAll(ops[1..], Performed(v, ops[0]));
      }
    }
  }
}
