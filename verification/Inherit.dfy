/** `thread-inherit` and `fork-inherit`: a new thread, or a forked process, starts with the mask of its
    creator, for any set that is blocked before. */
module Inherit {
  import opened Signals
  import opened Machine
  import opened Tables

  /** The five signals both programs block: USR1, URG, SEGV, BUS and ILL. */
  const FIVE: set<Sig> := {10, 23, 11, 7, 4}

  /** `main` of either program: the creator blocks `set0` on top of `earlier`, makes a thread or a
      process, and both read their masks. */
  method Drive(forks: bool, earlier: set<Sig>, set0: set<Sig>) returns (child: set<Sig>, parent: set<Sig>)
    requires earlier !! UNBLOCKABLE
    ensures child == parent == earlier + (set0 - {SIGKILL, SIGSTOP})
  {
    var sys := new System(earlier);
    ghost var v := View([Thread(0, earlier)], map[0 := map[]], 1);
    sys.Perform(Sigmask(0, BlockSet, set0), v);
    v := Performed(v, Sigmask(0, BlockSet, set0));
    var create := if forks then Fork(0) else Clone(0);
    sys.Perform(create, v);
    v := Performed(v, create);
    child := sys.QueryMask(1, v);
    parent := sys.QueryMask(0, v);
  }

  /** The programs themselves: each of the five signals is in either mask. */
  method Program(forks: bool) returns (ok: bool, child: set<Sig>, parent: set<Sig>)
    ensures ok && child == parent == {10, 23, 11, 7, 4}
  {
    child, parent := Drive(forks, {}, FIVE);
    ok := (forall k :: k in FIVE ==> k in child) && (forall k :: k in FIVE ==> k in parent);
  }
}
