/** Single-stepping with the trap flag: a small instruction machine, its plain run, and the run in
    which the kernel delivers SIGTRAP after every instruction that was started with TF set. */
module Stepping {

  /** `OrTf` and `AndNotTf` set and clear the TF bit of the flags image on top of the stack. */
  datatype Instr = Nop | Pushf | OrTf | AndNotTf | Popf | Call(target: int) | Ret

  function Length(i: Instr): int {
    match i
    case OrTf => 7
    case AndNotTf => 7
    case Call(_) => 5
    case _ => 1
  }

  datatype Word = Image(tf: bool, rest: int) | Address(a: int)

  datatype Cpu = Cpu(pc: int, tf: bool, rest: int, stack: seq<Word>)

  type Program = map<int, Instr>

  function Top(c: Cpu): Word
    requires c.stack != []
  {
    c.stack[|c.stack| - 1]
  }

  function Popped(c: Cpu): seq<Word>
    requires c.stack != []
  {
    c.stack[..|c.stack| - 1]
  }

  /** There is an instruction, and the stack holds what it takes. */
  predicate CanExec(p: Program, c: Cpu) {
    && c.pc in p
    && match p[c.pc]
       case OrTf => c.stack != [] && Top(c).Image?
       case AndNotTf => c.stack != [] && Top(c).Image?
       case Popf => c.stack != [] && Top(c).Image?
       case Ret => c.stack != [] && Top(c).Address?
       case _ => true
  }

  function Exec(p: Program, c: Cpu): Cpu
    requires CanExec(p, c)
  {
    var next := c.pc + Length(p[c.pc]);
    match p[c.pc]
    case Nop => c.(pc := next)
    case Pushf => c.(pc := next, stack := c.stack + [Image(c.tf, c.rest)])
    case OrTf => c.(pc := next, stack := Popped(c) + [Image(true, Top(c).rest)])
    case AndNotTf => c.(pc := next, stack := Popped(c) + [Image(false, Top(c).rest)])
    case Popf => Cpu(next, Top(c).tf, Top(c).rest, Popped(c))
    case Call(t) => c.(pc := t, stack := c.stack + [Address(next)])
    case Ret => c.(pc := Top(c).a, stack := Popped(c))
  }

  /** `n` instructions of a plain run, fewer if it halts. */
  function After(p: Program, c: Cpu, n: nat): Cpu
    decreases n
  {
    if n == 0 || !CanExec(p, c) then c else After(p, Exec(p, c), n - 1)
  }

  /** Pushing the flags and popping them changes nothing: the image holds what is live. */
  lemma PushfPopf(p: Program, c: Cpu)
    requires c.pc in p && p[c.pc] == Pushf && c.pc + 1 in p && p[c.pc + 1] == Popf
    ensures After(p, c, 2) == c.(pc := c.pc + 2)
  {
    var d := Exec(p, c);
    assert Popped(d) == c.stack;
    assert After(p, d, 1) == After(p, Exec(p, d), 0);
  }

  /** Popping flags and pushing them gives back the image that was there, and makes it live. */
  lemma PopfPushf(p: Program, c: Cpu)
    requires c.pc in p && p[c.pc] == Popf && c.pc + 1 in p && p[c.pc + 1] == Pushf
    requires c.stack != [] && Top(c).Image?
    ensures After(p, c, 2) == Cpu(c.pc + 2, Top(c).tf, Top(c).rest, c.stack)
  {
    var d := Exec(p, c);
    assert d.stack + [Top(c)] == c.stack;
    assert After(p, d, 1) == After(p, Exec(p, d), 0);
  }

  /** The code of `get_tf` as far as this machine goes: the flags are pushed, and the bit is taken from
      the pushed word. */
  const GET_TF: Program := map[0 := Pushf]

  method GetTf(c: Cpu) returns (tf: bool)
    ensures tf == c.tf
  {
    var d := Exec(GET_TF, c.(pc := 0));
    tf := Top(d).Image? && Top(d).tf;
  }

  // ---------------------------------------------------------------- stepping

  /** What the handler finds in its saved context: the instruction pointer and the TF bit. */
  datatype Trap = Trap(rip: int, tf: bool)

  /** What the handler does to the saved TF bit: nothing, or clear it from call number `k` on. */
  datatype Policy = Never | ClearAt(k: nat)

  datatype Stepped = Stepped(cpu: Cpu, log: seq<Trap>)

  function Edited(policy: Policy, count: nat, tf: bool): bool {
    if policy.ClearAt? && policy.k <= count then false else tf
  }

  /** One instruction; if it began with TF set, also a handler that logs and may edit the saved flag.
      The handler itself runs with TF clear, so none of its instructions trap. */
  function Step(p: Program, m: Stepped, policy: Policy): Stepped
    requires CanExec(p, m.cpu)
  {
    var c := Exec(p, m.cpu);
    if m.cpu.tf then
      var log := m.log + [Trap(c.pc, c.tf)];
      Stepped(c.(tf := Edited(policy, |log|, c.tf)), log)
    else m.(cpu := c)
  }

  function StepRun(p: Program, m: Stepped, policy: Policy, n: nat): Stepped
    decreases n
  {
    if n == 0 || !CanExec(p, m.cpu) then m else StepRun(p, Step(p, m, policy), policy, n - 1)
  }

  lemma {:induction false} StepRunCompose(p: Program, m: Stepped, policy: Policy, n: nat, k: nat)
    ensures StepRun(p, m, policy, n + k) == StepRun(p, StepRun(p, m, policy, n), policy, k)
    decreases n
  {
    if n > 0 && CanExec(p, m.cpu) {
      StepRunCompose(p, Step(p, m, policy), policy, n - 1, k);
    }
  }

  // ---------------------------------------------------------------- transparency

  predicate SameWord(a: Word, b: Word) {
    if a.Image? && b.Image? then a.rest == b.rest else a == b
  }

  /** Equal but for the TF bit, live and in pushed images. */
  predicate SameButTf(c: Cpu, d: Cpu) {
    && c.pc == d.pc && c.rest == d.rest && |c.stack| == |d.stack|
    && forall i :: 0 <= i < |c.stack| ==> SameWord(c.stack[i], d.stack[i])
  }

  lemma SameExec(p: Program, c: Cpu, d: Cpu)
    requires SameButTf(c, d)
    ensures CanExec(p, c) <==> CanExec(p, d)
    ensures CanExec(p, c) ==> SameButTf(Exec(p, c), Exec(p, d))
  {
    if c.stack != [] {
      assert SameWord(Top(c), Top(d));
    }
  }

  /** A stepped run, whatever its handler does to TF, ends where the plain run ends, up to TF; and
      the plain run may itself have started with any TF. */
  lemma {:induction false} SteppingIsTransparent(p: Program, m: Stepped, policy: Policy, d: Cpu, n: nat)
    requires SameButTf(m.cpu, d)
    ensures SameButTf(StepRun(p, m, policy, n).cpu, After(p, d, n))
    decreases n
  {
    SameExec(p, m.cpu, d);
    if n > 0 && CanExec(p, d) {
      SteppingIsTransparent(p, Step(p, m, policy), policy, Exec(p, d), n - 1);
    }
  }

  // ---------------------------------------------------------------- the trap log

  /** The successors of those instructions of the plain run that start with TF set. */
  function TfSuccessors(p: Program, c: Cpu, n: nat): seq<Trap>
    decreases n
  {
    if n == 0 || !CanExec(p, c) then []
    else
      var d := Exec(p, c);
      (if c.tf then [Trap(d.pc, d.tf)] else []) + TfSuccessors(p, d, n - 1)
  }

  /** When the handler leaves TF alone, stepping changes nothing at all, and the log is exactly the
      sequence of successor addresses of instructions started with TF set. */
  lemma {:induction false} LogIsTfSuccessors(p: Program, m: Stepped, n: nat)
    ensures StepRun(p, m, Never, n) == Stepped(After(p, m.cpu, n), m.log + TfSuccessors(p, m.cpu, n))
    decreases n
  {
    if n > 0 && CanExec(p, m.cpu) {
      var t := Step(p, m, Never);
      LogIsTfSuccessors(p, t, n - 1);
      var d := Exec(p, m.cpu);
      var head := if m.cpu.tf then [Trap(d.pc, d.tf)] else [];
      assert m.log + (head + TfSuccessors(p, d, n - 1)) == m.log + head + TfSuccessors(p, d, n - 1);
      assert m.log + [] == m.log;
      assert t.log == m.log + head && t.cpu == d;
    } else {
      assert m.log + [] == m.log;
    }
  }

  /** A handler that clears only from call `k` on is no different before that, nor at call `k` if
      the flag it finds there is clear already. */
  lemma {:induction false} ClearingLateIsNever(p: Program, m: Stepped, k: nat, n: nat)
    requires var traps := TfSuccessors(p, m.cpu, n);
             |m.log| + |traps| < k || (|m.log| + |traps| == k && traps != [] && !traps[|traps| - 1].tf)
    ensures StepRun(p, m, ClearAt(k), n) == StepRun(p, m, Never, n)
    decreases n
  {
    if n > 0 && CanExec(p, m.cpu) {
      var d := Exec(p, m.cpu);
      var rest := TfSuccessors(p, d, n - 1);
      if !m.cpu.tf {
        assert [] + rest == rest;
        ClearingLateIsNever(p, Step(p, m, Never), k, n - 1);
      } else if rest == [] && |m.log| + 1 == k {
        assert !d.tf;
        ClearIsInert(p, Step(p, m, Never), k, n - 1);
      } else {
        ClearingLateIsNever(p, Step(p, m, Never), k, n - 1);
      }
    }
  }

  lemma {:induction false} ClearIsInert(p: Program, m: Stepped, k: nat, n: nat)
    requires TfSuccessors(p, m.cpu, n) == []
    ensures StepRun(p, m, ClearAt(k), n) == StepRun(p, m, Never, n)
    decreases n
  {
    if n > 0 && CanExec(p, m.cpu) {
      ClearIsInert(p, Step(p, m, Never), k, n - 1);
    }
  }

  // ---------------------------------------------------------------- sections

  /** `n` instructions can run from `c`, and none of them is a `popf`. */
  predicate Quiet(p: Program, c: Cpu, n: nat)
    decreases n
  {
    n == 0 || (CanExec(p, c) && p[c.pc] != Popf && Quiet(p, Exec(p, c), n - 1))
  }

  lemma {:induction false} QuietPrefix(p: Program, c: Cpu, n: nat, k: nat)
    requires Quiet(p, c, n) && k <= n
    ensures Quiet(p, c, k)
    decreases k
  {
    if k > 0 {
      QuietPrefix(p, Exec(p, c), n - 1, k - 1);
    }
  }

  lemma {:induction false} QuietKeepsTf(p: Program, c: Cpu, n: nat)
    requires Quiet(p, c, n)
    ensures After(p, c, n).tf == c.tf && After(p, c, n).rest == c.rest
    ensures |TfSuccessors(p, c, n)| == if c.tf then n else 0
    decreases n
  {
    if n > 0 {
      QuietKeepsTf(p, Exec(p, c), n - 1);
    }
  }

  lemma {:induction false} AfterCompose(p: Program, c: Cpu, n: nat, k: nat)
    requires Quiet(p, c, n)
    ensures After(p, c, n + k) == After(p, After(p, c, n), k)
    decreases n
  {
    if n > 0 {
      AfterCompose(p, Exec(p, c), n - 1, k);
    }
  }

  lemma {:induction false} RunsCompose(p: Program, c: Cpu, n: nat, k: nat)
    requires Quiet(p, c, n)
    ensures After(p, c, n + k) == After(p, After(p, c, n), k)
    ensures TfSuccessors(p, c, n + k) == TfSuccessors(p, c, n) + TfSuccessors(p, After(p, c, n), k)
    decreases n
  {
    AfterCompose(p, c, n, k);
    var last := TfSuccessors(p, After(p, c, n), k);
    if n == 0 {
      assert [] + last == last;
    } else {
      var d := Exec(p, c);
      RunsCompose(p, d, n - 1, k);
      var head := if c.tf then [Trap(d.pc, d.tf)] else [];
      assert head + (TfSuccessors(p, d, n - 1) + last) == head + TfSuccessors(p, d, n - 1) + last;
    }
  }

  /** The three instructions that set or clear TF, at address `a`. */
  predicate FlagSwitch(p: Program, a: int, sets: bool) {
    && a in p && a + 1 in p && a + 8 in p
    && p[a] == Pushf && p[a + 1] == (if sets then OrTf else AndNotTf) && p[a + 8] == Popf
  }

  lemma SwitchRuns(p: Program, c: Cpu, sets: bool)
    requires FlagSwitch(p, c.pc, sets)
    ensures After(p, c, 3) == c.(pc := c.pc + 9, tf := sets)
    ensures TfSuccessors(p, c, 3) ==
            if c.tf then [Trap(c.pc + 1, true), Trap(c.pc + 8, true), Trap(c.pc + 9, sets)] else []
  {
    var c1 := Exec(p, c);
    var c2 := Exec(p, c1);
    assert Popped(c1) == c.stack;
    assert Popped(c2) == c.stack;
    var c3 := Exec(p, c2);
    assert After(p, c2, 1) == After(p, c3, 0);
    assert After(p, c1, 2) == After(p, c2, 1);
    assert TfSuccessors(p, c2, 1) == if c.tf then [Trap(c3.pc, c3.tf)] else [];
    assert TfSuccessors(p, c1, 2) == if c.tf then [Trap(c2.pc, true), Trap(c3.pc, c3.tf)] else [];
  }

  /** The setting switch itself is never trapped. */
  lemma SwitchSteps(p: Program, c: Cpu, log: seq<Trap>, policy: Policy, n: nat)
    requires FlagSwitch(p, c.pc, true) && !c.tf
    ensures var b := c.(pc := c.pc + 9, tf := true);
            StepRun(p, Stepped(c, log), policy, 3 + n) == StepRun(p, Stepped(b, log), policy, n)
  {
    var c1 := Exec(p, c);
    var c2 := Exec(p, c1);
    assert Popped(c1) == c.stack;
    assert Popped(c2) == c.stack;
    var m1, m2, m3 := Stepped(c1, log), Stepped(c2, log), Stepped(Exec(p, c2), log);
    assert StepRun(p, m1, policy, 2 + n) == StepRun(p, m2, policy, 1 + n) == StepRun(p, m3, policy, n);
  }

  /** A section of code between a switch that sets TF and one that clears it. Whatever calls it
      makes, it runs `n` instructions without touching the flags and comes back to its stack. */
  predicate Section(p: Program, c: Cpu, n: nat) {
    && FlagSwitch(p, c.pc, true) && !c.tf
    && Quiet(p, c.(pc := c.pc + 9, tf := true), n)
    && var d := After(p, c.(pc := c.pc + 9, tf := true), n);
       d.stack == c.stack && FlagSwitch(p, d.pc, false)
  }

  /** The whole section, both switches included, is logged like this: not the setting `popf`, then
      every instruction of the body, then the clearing `popf` with a clear flag. It makes `n + 3`
      traps and leaves TF clear. */
  lemma SectionTraps(p: Program, c: Cpu, n: nat)
    requires Section(p, c, n)
    ensures var b := c.(pc := c.pc + 9, tf := true);
            var d := After(p, b, n);
            && After(p, c, n + 6) == d.(pc := d.pc + 9, tf := false)
            && TfSuccessors(p, c, n + 6) ==
               TfSuccessors(p, b, n) + [Trap(d.pc + 1, true), Trap(d.pc + 8, true), Trap(d.pc + 9, false)]
            && |TfSuccessors(p, c, n + 6)| == n + 3
  {
    var b := c.(pc := c.pc + 9, tf := true);
    var d := After(p, b, n);
    SwitchRuns(p, c, true);
    SetsInThree(p, c, n + 3);
    QuietKeepsTf(p, b, n);
    RunsCompose(p, b, n, 3);
    SwitchRuns(p, d, false);
  }

  lemma SetsInThree(p: Program, c: Cpu, k: nat)
    requires FlagSwitch(p, c.pc, true) && !c.tf
    ensures var b := c.(pc := c.pc + 9, tf := true);
            After(p, c, 3 + k) == After(p, b, k) && TfSuccessors(p, c, 3 + k) == TfSuccessors(p, b, k)
  {
    var c1 := Exec(p, c);
    var c2 := Exec(p, c1);
    assert Popped(c1) == c.stack;
    assert Popped(c2) == c.stack;
    var c3 := Exec(p, c2);
    assert After(p, c1, 2 + k) == After(p, c2, 1 + k) == After(p, c3, k);
    assert TfSuccessors(p, c2, 1 + k) == TfSuccessors(p, c3, k);
    assert TfSuccessors(p, c1, 2 + k) == TfSuccessors(p, c3, k);
  }

  lemma {:induction false} QuietSame(p: Program, c: Cpu, d: Cpu, n: nat)
    requires SameButTf(c, d) && Quiet(p, c, n)
    ensures Quiet(p, d, n)
    decreases n
  {
    if n > 0 {
      SameExec(p, c, d);
      QuietSame(p, Exec(p, c), Exec(p, d), n - 1);
    }
  }

  lemma {:induction false} NoTrapsWhenClear(p: Program, m: Stepped, policy: Policy, n: nat)
    requires Quiet(p, m.cpu, n) && !m.cpu.tf
    ensures StepRun(p, m, policy, n).log == m.log && !StepRun(p, m, policy, n).cpu.tf
    decreases n
  {
    if n > 0 {
      NoTrapsWhenClear(p, Step(p, m, policy), policy, n - 1);
    }
  }

  /** With TF set and at least `k` instructions ahead that leave the flags alone, a handler that
      clears TF at call `k` is called exactly `k` times, at the first `k` successors; the program
      ends where it would have ended unobserved, with TF clear. */
  lemma {:induction false} ExactlyKTraps(p: Program, m: Stepped, k: nat, n: nat)
    requires Quiet(p, m.cpu, n) && m.cpu.tf && |m.log| < k <= |m.log| + n
    ensures var t := StepRun(p, m, ClearAt(k), n);
            && |t.log| == k && t.log == m.log + TfSuccessors(p, m.cpu, k - |m.log|)
            && SameButTf(t.cpu, After(p, m.cpu, n)) && !t.cpu.tf
    decreases n
  {
    var t := Step(p, m, ClearAt(k));
    var d := Exec(p, m.cpu);
    SteppingIsTransparent(p, m, ClearAt(k), m.cpu, n);
    var head := [Trap(d.pc, d.tf)];
    assert t.log == m.log + head;
    if |t.log| < k {
      ExactlyKTraps(p, t, k, n - 1);
      assert m.log + (head + TfSuccessors(p, d, k - |t.log|)) == t.log + TfSuccessors(p, d, k - |t.log|);
    } else {
      QuietSame(p, d, t.cpu, n - 1);
      NoTrapsWhenClear(p, t, ClearAt(k), n - 1);
      assert TfSuccessors(p, m.cpu, 1) == head + TfSuccessors(p, d, 0);
      assert head + [] == head;
    }
  }
}
