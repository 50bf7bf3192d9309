/** The three trap-flag programs, with any number of instructions in place of theirs: their handlers
    see the addresses the programs assert, and are called as often as they assert. */
module TrapPrograms {
  import opened Stepping

  // ---------------------------------------------------------------- code

  /** `n` one-byte nops from address `a` on. */
  predicate NopsAt(p: Program, a: int, n: nat) {
    forall i :: a <= i < a + n ==> i in p && p[i] == Nop
  }

  lemma {:induction false} NopsRun(p: Program, c: Cpu, n: nat)
    requires NopsAt(p, c.pc, n)
    ensures Quiet(p, c, n) && After(p, c, n) == c.(pc := c.pc + n)
    ensures TfSuccessors(p, c, n) == if c.tf then seq(n, i => Trap(c.pc + 1 + i, true)) else []
    decreases n
  {
    if n > 0 {
      NopsRun(p, c.(pc := c.pc + 1), n - 1);
      assert [Trap(c.pc + 1, true)] + seq(n - 1, i => Trap(c.pc + 2 + i, true))
          == seq(n, i => Trap(c.pc + 1 + i, true));
    }
  }

  /** `run` of `trap-flag-popf-clear`: `n` nops between the switches. */
  predicate ClearCode(p: Program, a: int, n: nat) {
    FlagSwitch(p, a, true) && NopsAt(p, a + 9, n) && FlagSwitch(p, a + 9 + n, false)
  }

  lemma ClearSection(p: Program, c: Cpu, n: nat)
    requires ClearCode(p, c.pc, n) && !c.tf
    ensures Section(p, c, n)
    ensures After(p, c, n + 6) == c.(pc := c.pc + 18 + n)
    ensures TfSuccessors(p, c, n + 6) == ClearTraps(c.pc + 10, n)
  {
    ClearIsSection(p, c, n);
    SectionTraps(p, c, n);
  }

  lemma ClearIsSection(p: Program, c: Cpu, n: nat)
    requires ClearCode(p, c.pc, n) && !c.tf
    ensures Section(p, c, n)
    ensures var b := c.(pc := c.pc + 9, tf := true);
            && After(p, b, n) == c.(pc := c.pc + 9 + n, tf := true)
            && TfSuccessors(p, b, n) == seq(n, i => Trap(c.pc + 10 + i, true))
  {
    NopsRun(p, c.(pc := c.pc + 9, tf := true), n);
  }

  /** While there is room for the whole log, the handler never gets to clear TF. */
  lemma ClearStepped(p: Program, c: Cpu, n: nat)
    requires ClearCode(p, c.pc, n) && !c.tf && n <= 13
    ensures StepRun(p, Stepped(c, []), ClearAt(16), n + 6) == Stepped(c.(pc := c.pc + 18 + n), ClearTraps(c.pc + 10, n))
  {
    ClearSection(p, c, n);
    ClearingLateIsNever(p, Stepped(c, []), 16, n + 6);
    LogIsTfSuccessors(p, Stepped(c, []), n + 6);
    assert [] + ClearTraps(c.pc + 10, n) == ClearTraps(c.pc + 10, n);
  }

  /** The nops and the first two instructions of the second switch leave the flags alone. */
  lemma ClearBody(p: Program, c: Cpu, n: nat) returns (b: Cpu)
    requires ClearCode(p, c.pc, n) && !c.tf
    ensures b == c.(pc := c.pc + 9, tf := true) && Quiet(p, b, n + 2)
    ensures After(p, b, n + 1) == b.(pc := b.pc + n + 1, stack := b.stack + [Image(true, b.rest)])
    ensures TfSuccessors(p, b, n + 3) == ClearTraps(c.pc + 10, n)
  {
    b := c.(pc := c.pc + 9, tf := true);
    NopsRun(p, b, n);
    var d := b.(pc := b.pc + n);
    var d1 := Exec(p, d);
    assert Quiet(p, Exec(p, d1), 0) && Quiet(p, d1, 1) && Quiet(p, d, 2);
    QuietCompose(p, b, n, 2);
    AfterCompose(p, b, n, 1);
    assert After(p, d, 1) == After(p, d1, 0);
    ClearSection(p, c, n);
    SetsInThree(p, c, n + 3);
  }

  /** The last two instructions: whatever the handler has done by then, the image loses its TF bit, and
      once the handler has cleared the live one nothing is logged any more. */
  lemma ClearTail(p: Program, t: Stepped, policy: Policy)
    requires t.cpu.pc in p && t.cpu.pc + 7 in p && p[t.cpu.pc] == AndNotTf && p[t.cpu.pc + 7] == Popf
    requires t.cpu.stack != [] && Top(t.cpu).Image? && !StepRun(p, t, policy, 1).cpu.tf
    ensures var u := StepRun(p, t, policy, 2);
            u.log == StepRun(p, t, policy, 1).log && !u.cpu.tf
  {
    var t1 := Step(p, t, policy);
    assert StepRun(p, t1, policy, 0) == t1;
    var t2 := Step(p, t1, policy);
    assert StepRun(p, t2, policy, 0) == t2;
    assert StepRun(p, t1, policy, 1) == t2;
  }

  lemma BodyStopped(p: Program, b: Cpu, n: nat)
    requires Quiet(p, b, n + 2) && b.tf && n > 13 && FlagSwitch(p, b.pc + n, false)
    requires After(p, b, n + 1) == b.(pc := b.pc + n + 1, stack := b.stack + [Image(true, b.rest)])
    ensures var t := StepRun(p, Stepped(b, []), ClearAt(16), n + 3);
            |t.log| == 16 && t.log == TfSuccessors(p, b, 16) && !t.cpu.tf
  {
    var m, policy := Stepped(b, []), ClearAt(16);
    ExactlyKTraps(p, m, 16, n + 2);
    StepRunCompose(p, m, policy, n + 1, 1);
    StepRunCompose(p, m, policy, n + 1, 2);
    ImageOnTop(p, m, policy, n);
    ClearTail(p, StepRun(p, m, policy, n + 1), policy);
  }

  /** Without that room the handler stops the stepping: sixteen traps, the first ones of the log, and
      TF is clear at the end all the same. */
  lemma ClearStopped(p: Program, c: Cpu, n: nat)
    requires ClearCode(p, c.pc, n) && !c.tf && n > 13
    ensures var t := StepRun(p, Stepped(c, []), ClearAt(16), n + 6);
            && |t.log| == 16 && t.log == ClearTraps(c.pc + 10, n)[..16] && !t.cpu.tf
            && SameButTf(t.cpu, c.(pc := c.pc + 18 + n))
  {
    var b := ClearBody(p, c, n);
    SwitchSteps(p, c, [], ClearAt(16), n + 3);
    BodyStopped(p, b, n);
    FirstTraps(p, b, n);
    SteppingIsTransparent(p, Stepped(c, []), ClearAt(16), c, n + 6);
    ClearSection(p, c, n);
  }

  lemma ImageOnTop(p: Program, m: Stepped, policy: Policy, n: nat)
    requires After(p, m.cpu, n + 1) == m.cpu.(pc := m.cpu.pc + n + 1, stack := m.cpu.stack + [Image(true, m.cpu.rest)])
    ensures var t := StepRun(p, m, policy, n + 1).cpu;
            t.pc == m.cpu.pc + n + 1 && t.stack != [] && Top(t).Image?
  {
    SteppingIsTransparent(p, m, policy, m.cpu, n + 1);
    var t, d := StepRun(p, m, policy, n + 1).cpu, After(p, m.cpu, n + 1);
    assert SameWord(t.stack[|t.stack| - 1], d.stack[|t.stack| - 1]);
  }

  lemma FirstTraps(p: Program, b: Cpu, n: nat)
    requires Quiet(p, b, n + 2) && b.tf && n > 13
    ensures 16 <= |TfSuccessors(p, b, n + 3)| && TfSuccessors(p, b, 16) == TfSuccessors(p, b, n + 3)[..16]
  {
    QuietPrefix(p, b, n + 2, 16);
    RunsCompose(p, b, 16, n - 13);
    QuietKeepsTf(p, b, 16);
  }

  /** What the program expects to log, counted from the label `base` after its first nop. */
  function ClearTraps(base: int, n: nat): seq<Trap> {
    seq(n, i => Trap(base + i, true)) + [Trap(base + n, true), Trap(base + n + 7, true), Trap(base + n + 8, false)]
  }

  /** `run` and `body` of `trap-flag-popf-repeat`: one nop, then a call of `j` nops and a `ret`. */
  predicate RepeatCode(p: Program, a: int, body: int, j: nat) {
    && FlagSwitch(p, a, true) && NopsAt(p, a + 9, 1)
    && a + 10 in p && p[a + 10] == Call(body)
    && NopsAt(p, body, j) && body + j in p && p[body + j] == Ret
    && FlagSwitch(p, a + 15, false)
  }

  lemma QuietCompose(p: Program, c: Cpu, n: nat, k: nat)
    requires Quiet(p, c, n) && Quiet(p, After(p, c, n), k)
    ensures Quiet(p, c, n + k)
    decreases n
  {
    if n > 0 {
      QuietCompose(p, Exec(p, c), n - 1, k);
    }
  }

  /** Running `body` from its first nop through its `ret`. */
  lemma BodyRuns(p: Program, c: Cpu, j: nat)
    requires NopsAt(p, c.pc, j) && c.pc + j in p && p[c.pc + j] == Ret
    requires c.stack != [] && Top(c).Address?
    ensures Quiet(p, c, j + 1) && After(p, c, j + 1) == c.(pc := Top(c).a, stack := Popped(c))
  {
    NopsRun(p, c, j);
    var d := c.(pc := c.pc + j);
    assert Quiet(p, Exec(p, d), 0) && After(p, d, 1) == Exec(p, d);
    assert Quiet(p, d, 1);
    QuietCompose(p, c, j, 1);
    RunsCompose(p, c, j, 1);
  }

  lemma RepeatSection(p: Program, c: Cpu, body: int, j: nat)
    requires RepeatCode(p, c.pc, body, j) && !c.tf
    ensures Section(p, c, j + 3)
    ensures After(p, c, j + 9) == c.(pc := c.pc + 24)
    ensures |TfSuccessors(p, c, j + 9)| == j + 6
  {
    var b := c.(pc := c.pc + 9, tf := true);
    var b1 := Exec(p, b);
    var b2 := Exec(p, b1);
    BodyRuns(p, b2, j);
    assert Popped(b2) == c.stack;
    assert Quiet(p, b1, j + 2) && After(p, b1, j + 2) == After(p, b2, j + 1);
    assert Quiet(p, b, j + 3) && After(p, b, j + 3) == After(p, b1, j + 2);
    SectionTraps(p, c, j + 3);
  }

  // ---------------------------------------------------------------- the programs

  /** What a handler is told about a trap besides its saved context. */
  datatype Siginfo = Siginfo(sig: int, code: int, addr: int, err: int, trapno: int)

  const SIGTRAP: int := 5
  const TRAP_TRACE: int := 2

  function TraceInfo(rip: int): Siginfo {
    Siginfo(SIGTRAP, TRAP_TRACE, rip, 0, 1)
  }

  /** What the handler's own instructions run on: the kernel enters it with TF clear. */
  function OnEntry(c: Cpu): Cpu {
    c.(tf := false)
  }

  class PopfClear {
    const rips: array<int>
    var count: nat
    var lastTf: bool
    var failed: bool

    constructor ()
      ensures rips.Length == 16 && count == 0 && !lastTf && !failed && fresh(rips)
    {
      rips := new int[16];
      count, lastTf, failed := 0, false, false;
    }

    /** Checks what it is told of the trap, logs the instruction pointer while there is room, and clears
        TF once there is none. */
    method SignalHandler(info: Siginfo, uc: Trap, live: Cpu) returns (tf: bool)
      modifies this`count, this`lastTf, this`failed, rips
      ensures count == old(count) + 1 && lastTf == uc.tf
      ensures failed == (old(failed) || info.sig != SIGTRAP || info.code != TRAP_TRACE || info.addr != uc.rip
                         || live.tf)
      ensures forall i :: 0 <= i < rips.Length ==>
                rips[i] == if i == old(count) && i < 16 then uc.rip else old(rips[i])
      ensures tf == (uc.tf && count < 16)
    {
      failed := failed || info.sig != SIGTRAP || info.code != TRAP_TRACE || info.addr != uc.rip;
      var tfInside := GetTf(live);
      failed := failed || tfInside;
      if count < 16 && count < rips.Length {
        rips[count] := uc.rip;
      }
      lastTf := uc.tf;
      count := count + 1;
      tf := if count >= 16 then false else uc.tf;
    }

    /** What the globals record of a log. */
    ghost predicate Records(log: seq<Trap>)
      reads this, rips
    {
      && rips.Length == 16 && count == |log| && !failed
      && (forall i :: 0 <= i < |log| && i < 16 ==> rips[i] == log[i].rip)
      && (log != [] ==> lastTf == log[|log| - 1].tf)
    }

    /** Runs `n` instructions, with a call of the handler after each one started with TF set. */
    method Execute(p: Program, c: Cpu, n: nat) returns (d: Cpu)
      requires rips.Length == 16 && count == 0 && !failed
      modifies this, rips
      ensures Records(StepRun(p, Stepped(c, []), ClearAt(16), n).log)
      ensures d == StepRun(p, Stepped(c, []), ClearAt(16), n).cpu
    {
      ghost var m := Stepped(c, []);
      d := c;
      for i := 0 to n
        invariant Records(m.log) && d == m.cpu
        invariant StepRun(p, m, ClearAt(16), n - i) == StepRun(p, Stepped(c, []), ClearAt(16), n)
      {
        if !CanExec(p, d) { break; }
        ghost var before := m.log;
        m := Step(p, m, ClearAt(16));
        var trapped := d.tf;
        d := Exec(p, d);
        if trapped {
          var tf := SignalHandler(TraceInfo(d.pc), Trap(d.pc, d.tf), OnEntry(d));
          d := d.(tf := tf);
          assert m.log == before + [Trap(d.pc, m.log[|before|].tf)];
        }
      }
    }

    /** For any number of nops between the switches TF is clear afterwards and the log has the addresses
        `main` asserts, as far as its array goes. What `main` asserts of the count, `n + 3`, and of the
        last flag holds if and only if `n` is at most thirteen; the program itself has five. */
    method Drive(p: Program, c: Cpu, n: nat) returns (d: Cpu, expectedRip: int)
      requires ClearCode(p, c.pc, n) && !c.tf
      requires rips.Length == 16 && count == 0 && !failed
      modifies this, rips
      ensures expectedRip == c.pc + 10 && SameButTf(d, c.(pc := c.pc + 18 + n)) && !d.tf && !failed
      ensures count == (if n <= 13 then n + 3 else 16) && (lastTf <==> n > 13)
      ensures n <= 13 ==> d == c.(pc := c.pc + 18 + n)
      ensures forall i :: 0 <= i < count ==>
                rips[i] == expectedRip + (if i <= n then i else if i == n + 1 then n + 7 else n + 8)
    {
      expectedRip := c.pc + 10;
      if n <= 13 { ClearStepped(p, c, n); } else { ClearStopped(p, c, n); }
      d := Execute(p, c, n + 6);
      var tfAfter := GetTf(d);
      failed := failed || tfAfter;
      ghost var log := ClearTraps(expectedRip, n);
      assert forall i :: 0 <= i < n ==> log[i] == Trap(expectedRip + i, true);
    }
  }

  class PopfRepeat {
    var count: nat
    var failed: bool

    constructor ()
      ensures count == 0 && !failed
    {
      count, failed := 0, false;
    }

    method SignalHandler(info: Siginfo, uc: Trap, live: Cpu)
      modifies this
      ensures count == old(count) + 1
      ensures failed == (old(failed) || info.sig != SIGTRAP || info.code != TRAP_TRACE || info.addr != uc.rip
                         || live.tf)
    {
      failed := failed || info.sig != SIGTRAP || info.code != TRAP_TRACE || info.addr != uc.rip;
      var tfInside := GetTf(live);
      failed := failed || tfInside;
      count := count + 1;
    }

    method Execute(p: Program, c: Cpu, n: nat) returns (d: Cpu)
      modifies this
      ensures d == After(p, c, n) && count == old(count) + |TfSuccessors(p, c, n)| && failed == old(failed)
    {
      d := c;
      for i := 0 to n
        invariant After(p, d, n - i) == After(p, c, n) && failed == old(failed)
        invariant count + |TfSuccessors(p, d, n - i)| == old(count) + |TfSuccessors(p, c, n)|
      {
        if !CanExec(p, d) { break; }
        var trapped := d.tf;
        d := Exec(p, d);
        if trapped { SignalHandler(TraceInfo(d.pc), Trap(d.pc, d.tf), OnEntry(d)); }
      }
    }

    /** Any number of rounds of a stepped run and `plain` unstepped calls of the same body: each
        round counts `j + 6` traps in its stepped part and none in the rest. */
    method Drive(p: Program, c: Cpu, body: int, j: nat, rounds: nat, plain: nat) returns (counts: seq<nat>)
      requires RepeatCode(p, c.pc, body, j) && !c.tf && !failed
      modifies this
      ensures !failed && |counts| == rounds && forall i :: 0 <= i < rounds ==> counts[i] == j + 6
    {
      counts := [];
      for i := 0 to rounds
        invariant !failed && |counts| == i && forall k :: 0 <= k < i ==> counts[k] == j + 6
      {
        count := 0;
        RepeatSection(p, c, body, j);
        var d := Execute(p, c, j + 9);
        var tfAfter := GetTf(d);
        failed := failed || tfAfter || count != j + 6;
        for k := 0 to plain
          invariant !failed && count == j + 6
        {
          var e := c.(pc := body, stack := c.stack + [Address(c.pc)]);
          BodyRuns(p, e, j);
          QuietKeepsTf(p, e, j + 1);
          var _ := Execute(p, e, j + 1);
        }
        failed := failed || count != j + 6;
        counts := counts + [count];
      }
    }
  }

  /** The instruction at `a` is `i`: its first byte is what the program reads there. */
  predicate Reads(p: Program, a: int, i: Instr) {
    a in p && p[a] == i
  }

  class TrapFlag {
    const k: nat
    var count: nat
    var ripOk: bool
    var failed: bool

    constructor (k: nat)
      ensures this.k == k && count == 0 && ripOk && !failed
    {
      this.k := k;
      count, ripOk, failed := 0, true, false;
    }

    /** Checks what it is told of the trap, the saved flag, the code around the saved address and the
        address itself, and stops the stepping at call `k`. */
    method SignalHandler(p: Program, info: Siginfo, uc: Trap, live: Cpu, expectedRip: int) returns (tf: bool)
      modifies this
      ensures count == old(count) + 1
      ensures ripOk == (old(ripOk) && uc.rip == expectedRip + count - 1)
      ensures failed == (old(failed) || info != TraceInfo(uc.rip).(sig := info.sig) || live.tf
                         || !TrapOk(p, old(count), uc))
      ensures tf == (uc.tf && count < k)
    {
      count := count + 1;
      failed := failed || info.code != TRAP_TRACE || info.addr != uc.rip || !uc.tf;
      var tfInside := GetTf(live);
      failed := failed || info.err != 0 || info.trapno != 1 || tfInside;
      failed := failed || !Reads(p, uc.rip - 1, Nop);
      if count == 1 {
        failed := failed || !Reads(p, uc.rip - 2, Popf) || !Reads(p, uc.rip, Nop);
      }
      if uc.rip != expectedRip + count - 1 { ripOk := false; }
      tf := if count >= k then false else uc.tf;
    }

    method Execute(p: Program, c: Cpu, n: nat, expectedRip: int) returns (d: Cpu)
      requires count == 0 && ripOk && !failed
      modifies this
      ensures var t := StepRun(p, Stepped(c, []), ClearAt(k), n);
              && d == t.cpu && count == |t.log|
              && (ripOk <==> forall i :: 0 <= i < |t.log| ==> t.log[i].rip == expectedRip + i)
              && (failed <==> exists i :: 0 <= i < |t.log| && !TrapOk(p, i, t.log[i]))
    {
      ghost var m := Stepped(c, []);
      d := c;
      for i := 0 to n
        invariant d == m.cpu && count == |m.log|
        invariant ripOk <==> forall i :: 0 <= i < |m.log| ==> m.log[i].rip == expectedRip + i
        invariant failed <==> exists i :: 0 <= i < |m.log| && !TrapOk(p, i, m.log[i])
        invariant StepRun(p, m, ClearAt(k), n - i) == StepRun(p, Stepped(c, []), ClearAt(k), n)
      {
        if !CanExec(p, d) { break; }
        ghost var before := m;
        m := Step(p, m, ClearAt(k));
        var trapped := d.tf;
        d := Exec(p, d);
        if trapped {
          var tf := SignalHandler(p, TraceInfo(d.pc), Trap(d.pc, d.tf), OnEntry(d), expectedRip);
          LogGrows(p, before.log, Trap(d.pc, d.tf), expectedRip);
          d := d.(tf := tf);
        }
      }
    }

    /** For every `k` and at least `k` nops: the handler is called exactly `k` times, at consecutive
        addresses from the label after the first nop, always with the saved flag set, and the
        program goes on without TF. Its assertions hold if and only if a nop follows the first one,
        which its first call reads. */
    method Drive(p: Program, c: Cpu, n: nat) returns (d: Cpu)
      requires FlagSwitch(p, c.pc, true) && NopsAt(p, c.pc + 9, n) && !c.tf && 1 <= k <= n
      requires count == 0 && ripOk && !failed
      modifies this
      ensures count == k && ripOk && (!failed <==> Reads(p, c.pc + 10, Nop))
      ensures SameButTf(d, c.(pc := c.pc + 9 + n)) && !d.tf
    {
      FlagStepped(p, c, n, k);
      NopTrapsOk(p, c.pc, n, k, seq(k, i => Trap(c.pc + 10 + i, true)));
      d := Execute(p, c, 3 + n, c.pc + 10);
    }
  }

  lemma FlagStepped(p: Program, c: Cpu, n: nat, k: nat)
    requires FlagSwitch(p, c.pc, true) && NopsAt(p, c.pc + 9, n) && !c.tf && 1 <= k <= n
    ensures var t := StepRun(p, Stepped(c, []), ClearAt(k), 3 + n);
            && t.log == seq(k, i => Trap(c.pc + 10 + i, true))
            && SameButTf(t.cpu, c.(pc := c.pc + 9 + n)) && !t.cpu.tf
  {
    var b := c.(pc := c.pc + 9, tf := true);
    SwitchSteps(p, c, [], ClearAt(k), n);
    NopsRun(p, b, n);
    NopsRun(p, b, k);
    ExactlyKTraps(p, Stepped(b, []), k, n);
    var log := seq(k, i => Trap(c.pc + 10 + i, true));
    assert [] + log == log;
  }

  /** What the handler of `trap-flag` asserts of the context saved at call number `i`. */
  predicate TrapOk(p: Program, i: nat, x: Trap) {
    && x.tf && Reads(p, x.rip - 1, Nop)
    && (i == 0 ==> Reads(p, x.rip - 2, Popf) && Reads(p, x.rip, Nop))
  }

  lemma NopTrapsOk(p: Program, a: int, n: nat, k: nat, log: seq<Trap>)
    requires FlagSwitch(p, a, true) && NopsAt(p, a + 9, n) && 1 <= k <= n
    requires log == seq(k, i => Trap(a + 10 + i, true))
    ensures (exists i :: 0 <= i < |log| && !TrapOk(p, i, log[i])) <==> !Reads(p, a + 10, Nop)
  {
    forall i | 0 < i < k ensures TrapOk(p, i, log[i]) {
      assert p[a + 9 + i] == Nop;
    }
    assert log[0] == Trap(a + 10, true) && p[a + 9] == Nop;
    assert TrapOk(p, 0, log[0]) <==> Reads(p, a + 10, Nop);
  }

  lemma LogGrows(p: Program, log: seq<Trap>, x: Trap, base: int)
    ensures (forall i :: 0 <= i < |log + [x]| ==> (log + [x])[i].rip == base + i) <==>
            (forall i :: 0 <= i < |log| ==> log[i].rip == base + i) && x.rip == base + |log|
    ensures (exists i :: 0 <= i < |log + [x]| && !TrapOk(p, i, (log + [x])[i])) <==>
            (exists i :: 0 <= i < |log| && !TrapOk(p, i, log[i])) || !TrapOk(p, |log|, x)
  {
    var all := log + [x];
    assert all[|log|] == x;
    assert forall i :: 0 <= i < |log| ==> all[i] == log[i];
  }
}
