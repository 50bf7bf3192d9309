/** Signal numbers, masks and the kernel's default actions, as Linux has them on x86. */
module Signals {

  type Sig = s: int | 1 <= s <= 64 witness 1

  const SIGKILL: Sig := 9
  const SIGUSR1: Sig := 10
  const SIGUSR2: Sig := 12
  const SIGCHLD: Sig := 17
  const SIGCONT: Sig := 18
  const SIGSTOP: Sig := 19
  const SIGTSTP: Sig := 20
  const SIGTTIN: Sig := 21
  const SIGTTOU: Sig := 22
  const SIGURG: Sig := 23
  const SIGWINCH: Sig := 28

  /** Every signal number: what the raw all-ones mask of `rt_sigprocmask` names. */
  const FULL: set<Sig> := set s: Sig | 1 <= s <= 64

  /** The two signals that no mask can hold. */
  const UNBLOCKABLE: set<Sig> := {SIGKILL, SIGSTOP}

  /** What the kernel stores when a program asks for mask `m`. */
  function Filter(m: set<Sig>): set<Sig> {
    m - UNBLOCKABLE
  }

  predicate Realtime(s: Sig) {
    32 <= s
  }

  /** The kernel's default action: four signals are ignored, four stop the thread, and any other
      ends it. */
  predicate IgnoredByDefault(s: Sig) {
    s == SIGCHLD || s == SIGCONT || s == SIGURG || s == SIGWINCH
  }

  predicate StopsByDefault(s: Sig) {
    s == SIGSTOP || s == SIGTSTP || s == SIGTTIN || s == SIGTTOU
  }

  ghost function UpTo(n: nat): set<int> {
    if n == 0 then {} else UpTo(n - 1) + {n}
  }

  lemma {:induction false} UpToSize(n: nat)
    ensures |UpTo(n)| == n
    ensures forall s :: s in UpTo(n) <==> 1 <= s <= n
  {
    if n != 0 {
      UpToSize(n - 1);
    }
  }

  lemma SubsetSize<T>(a: set<T>, b: set<T>)
    requires a <= b
    ensures |a| <= |b|
  {
    assert b == a + (b - a);
  }

  /** At most 62 signals can be in a mask, or carry a handler. */
  lemma BlockableBound(m: set<Sig>)
    requires m !! UNBLOCKABLE
    ensures |m| <= 62
  {
    UpToSize(64);
    var rest := UpTo(64) - UNBLOCKABLE;
    assert UpTo(64) == rest + UNBLOCKABLE;
    assert m <= rest;
    SubsetSize(m, rest);
  }
}
