/** Cutting a run into slices, and what every run keeps. */
module Slicing {
  import opened BankedMemory
  import opened Instructions
  import opened Keeping
  import opened Machine
  import opened Fused
  import opened Z80Emulator

  /** Consecutive budgets, with the number of reference steps each one takes. */
  ghost predicate Schedule<D>(bus: Bus<D>, s: State<D>, budgets: seq<nat>, plan: seq<nat>)
    decreases |budgets|
  {
    hide Finishes, Safe, Steps;
    |budgets| == |plan| &&
    (budgets != [] ==>
       && Finishes(bus, s, budgets[0], plan[0])
       && Safe(bus, s, budgets[0], plan[0])
       && Schedule(bus, Steps(bus, s, plan[0]), budgets[1..], plan[1..]))
  }

  ghost function Sum(plan: seq<nat>): nat {
    if plan == [] then 0 else plan[0] + Sum(plan[1..])
  }

  /** The cycles that the calls return, together. */
  ghost function Returned<D>(bus: Bus<D>, s: State<D>, budgets: seq<nat>, plan: seq<nat>): int
    requires |budgets| == |plan|
    decreases |budgets|
  {
    hide Reported, Steps;
    if budgets == [] then 0
    else Reported(bus, s, 0, budgets[0], plan[0]) + Returned(bus, Steps(bus, s, plan[0]), budgets[1..], plan[1..])
  }

  /** Several calls of the emulator in a row stay on the trajectory of the reference machine. */
  method RunSlices<D>(cpu: Z80<D>, budgets: seq<nat>, ghost plan: seq<nat>) returns (cycles: int)
    requires Schedule(cpu.bus, cpu.Now(), budgets, plan)
    modifies cpu
    ensures cpu.Now() == Steps(cpu.bus, old(cpu.Now()), Sum(plan))
    ensures cycles == Returned(cpu.bus, old(cpu.Now()), budgets, plan)
  {
    hide Finishes, Safe, Step, Reported;
    ghost var start := cpu.Now();
    var i := 0;
    cycles := 0;
    while i < |budgets|
      invariant 0 <= i <= |budgets| == |plan|
      invariant Schedule(cpu.bus, cpu.Now(), budgets[i..], plan[i..])
      invariant Steps(cpu.bus, cpu.Now(), Sum(plan[i..])) == Steps(cpu.bus, start, Sum(plan))
      invariant cycles + Returned(cpu.bus, cpu.Now(), budgets[i..], plan[i..])
             == Returned(cpu.bus, start, budgets, plan)
    {
      ghost var s := cpu.Now();
      StepsAdd(cpu.bus, s, plan[i], Sum(plan[i + 1..]));
      assert budgets[i..][1..] == budgets[i + 1..] && plan[i..][1..] == plan[i + 1..];
      var elapsed := cpu.Emulate(budgets[i], plan[i]);
      cycles := cycles + elapsed;
      i := i + 1;
    }
  }

  // What cutting a budget does to the point where the run stops.

  ghost function Total(budgets: seq<nat>): nat {
    if budgets == [] then 0 else budgets[0] + Total(budgets[1..])
  }

  /** Of two runs from one state the one with the larger budget goes on after the other has stopped, and
      has then spent at least the smaller budget. */
  lemma {:induction false} AfterSmaller<D>(bus: Bus<D>, s: State<D>, less: int, left: int, j: nat, k: nat)
    returns (rest: int)
    requires less <= left && Finishes(bus, s, less, j) && Finishes(bus, s, left, k) && j < k
    ensures 0 < rest <= left - less && Finishes(bus, Steps(bus, s, j), rest, k - j)
    decreases j
  {
    hide Step;
    var t := Step(bus, s);
    if Stops(t, less) {
      rest := Left(t, left);
      assert Steps(bus, t.s, 0) == t.s;
    } else {
      rest := AfterSmaller(bus, t.s, Left(t, less), Left(t, left), j - 1, k - 1);
    }
  }

  /** A run cut into slices is never behind the run that is not cut: whatever DI, EI and HALT do to the
      slices, they only move the stop further along the same trajectory. */
  lemma {:induction false} CutIsNeverBehind<D>(bus: Bus<D>, s: State<D>, budgets: seq<nat>, plan: seq<nat>,
                                               left: int, k: nat)
    requires budgets != [] && Schedule(bus, s, budgets, plan)
    requires left <= Total(budgets) && Finishes(bus, s, left, k)
    ensures k <= Sum(plan)
    ensures Steps(bus, s, Sum(plan)) == Steps(bus, Steps(bus, s, k), Sum(plan) - k)
    decreases |budgets|
  {
    hide Finishes, Safe, Step, Steps;
    var b, p := budgets[0], plan[0];
    if left <= b {
      var j := SmallerBudget(bus, s, left, b, p);
      FinishesUnique(bus, s, left, j, k);
    } else {
      var j := SmallerBudget(bus, s, b, left, k);
      FinishesUnique(bus, s, b, j, p);
      if p < k {
        var rest := AfterSmaller(bus, s, b, left, p, k);
        CutIsNeverBehind(bus, Steps(bus, s, p), budgets[1..], plan[1..], rest, k - p);
      }
    }
    StepsAdd(bus, s, k, Sum(plan) - k);
  }

  /** The last of `k` steps is a HALT. */
  ghost predicate EndsInHalt<D>(bus: Bus<D>, s: State<D>, k: nat) {
    hide Step, Steps;
    k > 0 && var t := Step(bus, Steps(bus, s, k - 1)); t.Tick? && t.signal.Halted?
  }

  /** A call returns at least the cycles it was given; without a HALT it returns exactly those spent. */
  lemma {:induction false} ReportsBudget<D>(bus: Bus<D>, s: State<D>, elapsed: int, number: int, k: nat)
    requires Finishes(bus, s, number - elapsed, k)
    ensures Reported(bus, s, elapsed, number, k) >= number
    ensures Reported(bus, s, elapsed, number, k) >= elapsed + Cost(bus, s, k)
    ensures !EndsInHalt(bus, s, k) ==> Reported(bus, s, elapsed, number, k) == elapsed + Cost(bus, s, k)
    decreases k
  {
    hide Step;
    var t := Step(bus, s);
    if k > 1 {
      assert Steps(bus, s, k - 1) == Steps(bus, t.s, k - 2);
      ReportsBudget(bus, t.s, elapsed + t.cost, if t.signal.Lengthen? then number + 4 else number, k - 1);
    } else {
      assert Steps(bus, s, 0) == s && Cost(bus, t.s, 0) == 0;
    }
  }

  /** No slice before the last ends in a HALT. */
  ghost predicate HaltsLastIfAtAll<D>(bus: Bus<D>, s: State<D>, plan: seq<nat>)
    decreases |plan|
  {
    hide EndsInHalt, Steps;
    |plan| > 1 ==> !EndsInHalt(bus, s, plan[0]) && HaltsLastIfAtAll(bus, Steps(bus, s, plan[0]), plan[1..])
  }

  /** A run that the budget ends, continued by another: one run with a budget of both or more. */
  lemma {:induction false} Continued<D>(bus: Bus<D>, s: State<D>, first: int, j: nat, more: int, k: nat)
    returns (left: int)
    requires Finishes(bus, s, first, j) && !EndsInHalt(bus, s, j)
    requires more > 0 && Finishes(bus, Steps(bus, s, j), more, k)
    ensures left >= first + more && Finishes(bus, s, left, j + k)
    decreases j
  {
    hide Step;
    var t := Step(bus, s);
    if j == 1 {
      assert Steps(bus, s, 0) == s && Steps(bus, t.s, 0) == t.s;
      left := more + (first - Left(t, first));
    } else {
      assert Steps(bus, s, j - 1) == Steps(bus, t.s, j - 2);
      var rest := Continued(bus, t.s, Left(t, first), j - 1, more, k);
      left := rest + (first - Left(t, first));
    }
  }

  /** And a run cut into slices stops where one call with a budget no smaller stops, unless a HALT ends
      a slice before the last. */
  lemma {:induction false} CutIsOneCall<D>(bus: Bus<D>, s: State<D>, budgets: seq<nat>, plan: seq<nat>)
    returns (left: int)
    requires budgets != [] && budgets[|budgets| - 1] > 0 && Schedule(bus, s, budgets, plan)
    requires HaltsLastIfAtAll(bus, s, plan)
    ensures left >= Total(budgets) && left > 0 && Finishes(bus, s, left, Sum(plan))
    decreases |budgets|
  {
    hide Finishes, Safe, Step, Steps, EndsInHalt;
    var b, p := budgets[0], plan[0];
    if |budgets| == 1 {
      left := b;
    } else {
      var more := CutIsOneCall(bus, Steps(bus, s, p), budgets[1..], plan[1..]);
      left := Continued(bus, s, b, p, more, Sum(plan[1..]));
    }
  }

  /** However a budget is cut, the calls return at least its cycles. */
  lemma {:induction false} ReturnsTotal<D>(bus: Bus<D>, s: State<D>, budgets: seq<nat>, plan: seq<nat>)
    requires Schedule(bus, s, budgets, plan)
    ensures Returned(bus, s, budgets, plan) >= Total(budgets)
    decreases |budgets|
  {
    hide Finishes, Safe, Step, Steps, Reported;
    if budgets != [] {
      ReportsBudget(bus, s, 0, budgets[0], plan[0]);
      ReturnsTotal(bus, Steps(bus, s, plan[0]), budgets[1..], plan[1..]);
    }
  }

  /** A smaller budget stops the same run no later. */
  lemma {:induction false} SmallerBudget<D>(bus: Bus<D>, s: State<D>, less: int, left: int, k: nat) returns (j: nat)
    requires less <= left && Finishes(bus, s, left, k)
    ensures j <= k && Finishes(bus, s, less, j)
    decreases k
  {
    hide Step;
    var t := Step(bus, s);
    if Stops(t, less) {
      j := 1;
    } else {
      j := SmallerBudget(bus, t.s, Left(t, less), Left(t, left), k - 1);
      j := j + 1;
    }
  }

  /** Whatever the program, the PROM never changes. */
  lemma {:induction false} PromForever<D>(bus: Bus<D>, s: State<D>, k: nat)
    ensures Prom(Steps(bus, s, k).core.mem) == Prom(s.core.mem)
    decreases k
  {
    hide Prom, Step, Exec, Fetch, Operands, Read;
    if k > 0 {
      var t := Step(bus, s);
      if t.Tick? {
        StepKeeps(bus, s);
        PromForever(bus, t.s, k - 1);
      }
    }
  }

  /** One step, whatever the program: the PROM stays, pages move only by an output instruction, bit 7
      of R only by LD R,A, and pc and R stay in their registers' ranges. */
  lemma StepKeeps<D>(bus: Bus<D>, s: State<D>)
    requires Step(bus, s).Tick?
    ensures var f, t := Fetch(s.core.mem, s.pc), Step(bus, s).s;
      && Prom(t.core.mem) == Prom(s.core.mem)
      && (t.core.mem.slots != s.core.mem.slots ==> f.Fetched? && IsOutput(f.x))
      && (t.core.regs.r7 != s.core.regs.r7 ==> f.Fetched? && f.x == LdRA)
      && 0 <= t.pc < 65536 && 0 <= t.r < 128
  {
    hide Prom, Exec, Fetch, Operands, Read, IsOutput;
    var f := Fetch(s.core.mem, s.pc);
    var here, r := s.pc + f.len, s.r + f.refresh;
    ExecKeeps(bus, f.x, Operands(s.core.mem, f, here, r), s.core);
  }
}
