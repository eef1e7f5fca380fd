/** Whole copies and searches on the emulator itself, cut into any slices. */
module BlockSlices {
  import opened Words
  import opened BankedMemory
  import opened Instructions
  import opened Machine
  import opened Fused
  import opened BlockMeaning
  import opened Slicing
  import opened Z80Emulator

  /** Consecutive budgets with the number of steps each one takes: a `Schedule` that says nothing of
      traps. */
  ghost predicate Cuts<D>(bus: Bus<D>, s: State<D>, budgets: seq<nat>, plan: seq<nat>)
    decreases |budgets|
  {
    hide Finishes, Steps;
    |budgets| == |plan| &&
    (budgets != [] ==>
       Finishes(bus, s, budgets[0], plan[0]) && Cuts(bus, Steps(bus, s, plan[0]), budgets[1..], plan[1..]))
  }

  // Copies.

  /** `s` itself or the state after `j` iterations. */
  ghost function LoadedFrom<D>(s: State<D>, up: bool, j: nat): State<D>
    requires At(s, Load, up) && j <= Count(s.core.regs.bc)
  {
    hide Loaded;
    if j == 0 then s else Loaded(s, up, j)
  }

  lemma LoadedOn<D>(bus: Bus<D>, s: State<D>, up: bool, j: nat, k: nat)
    requires At(s, Load, up) && Clear(s, up) && j + k <= Count(s.core.regs.bc)
    ensures Steps(bus, LoadedFrom(s, up, j), k) == LoadedFrom(s, up, j + k)
  {
    hide Fetch, Step, Clear, Loaded, Steps, Cost;
    if j > 0 {
      LoadRun(bus, s, up, j);
      StepsAdd(bus, s, j, k);
    }
    if j + k > 0 {
      LoadRun(bus, s, up, j + k);
    }
    NoSteps(bus, LoadedFrom(s, up, j));
  }

  lemma NoSteps<D>(bus: Bus<D>, s: State<D>)
    ensures Steps(bus, s, 0) == s && Cost(bus, s, 0) == 0
  {
  }

  lemma {:induction false} LoadSchedule<D>(bus: Bus<D>, s: State<D>, up: bool, j: nat, budgets: seq<nat>,
                                           plan: seq<nat>)
    requires At(s, Load, up) && Clear(s, up) && |budgets| == |plan| && j + Sum(plan) <= Count(s.core.regs.bc)
    requires Cuts(bus, LoadedFrom(s, up, j), budgets, plan)
    ensures Schedule(bus, LoadedFrom(s, up, j), budgets, plan)
    decreases |budgets|
  {
    hide Fetch, Clear, Loaded, Steps, Finishes, Safe;
    if budgets != [] {
      LoadIsSafe(bus, s, up, budgets[0], j, plan[0]);
      LoadedOn(bus, s, up, j, plan[0]);
      LoadSchedule(bus, s, up, j + plan[0], budgets[1..], plan[1..]);
    }
  }

  /** No iteration is a HALT, so the calls return exactly the cycles spent. */
  lemma LoadedTicks<D>(bus: Bus<D>, s: State<D>, up: bool, j: nat)
    requires At(s, Load, up) && Clear(s, up) && j < Count(s.core.regs.bc)
    ensures var t := Step(bus, LoadedFrom(s, up, j)); t.Tick? && t.signal.Plain?
  {
    hide Fetch, Step, Clear, Loaded;
    if j == 0 {
      LoadFirst(bus, s, up);
    } else {
      LoadNext(bus, s, up, j + 1);
    }
  }

  lemma {:induction false} LoadReturned<D>(bus: Bus<D>, s: State<D>, up: bool, j: nat, budgets: seq<nat>,
                                           plan: seq<nat>)
    requires At(s, Load, up) && Clear(s, up) && |budgets| == |plan| && j + Sum(plan) <= Count(s.core.regs.bc)
    requires Cuts(bus, LoadedFrom(s, up, j), budgets, plan)
    ensures Returned(bus, LoadedFrom(s, up, j), budgets, plan) == Cost(bus, LoadedFrom(s, up, j), Sum(plan))
    decreases |budgets|
  {
    hide Fetch, Step, Clear, LoadedFrom, Steps, Finishes, Reported, Cost;
    var t := LoadedFrom(s, up, j);
    if budgets == [] {
      NoSteps(bus, t);
    } else {
      var p := plan[0];
      FinishesSome(bus, t, budgets[0], p);
      LoadedOn(bus, s, up, j, p - 1);
      LoadedTicks(bus, s, up, j + p - 1);
      ReportsBudget(bus, t, 0, budgets[0], p);
      LoadedOn(bus, s, up, j, p);
      LoadReturned(bus, s, up, j + p, budgets[1..], plan[1..]);
      StepsAdd(bus, t, p, Sum(plan[1..]));
    }
  }

  /** LDIR or LDDR over any number of slices that together make its iterations. */
  method CopyInSlices<D>(cpu: Z80<D>, up: bool, budgets: seq<nat>, ghost plan: seq<nat>) returns (cycles: int)
    requires At(cpu.Now(), Load, up) && Clear(cpu.Now(), up)
    requires Cuts(cpu.bus, cpu.Now(), budgets, plan) && Sum(plan) == Count(cpu.regs.bc)
    modifies cpu
    ensures var s, t := old(cpu.Now()), cpu.Now();
      var r, m, n := s.core.regs, s.core.mem, Count(s.core.regs.bc);
      && (forall i :: 0 <= i < n ==>
           Read(t.core.mem, Along(up, r.de, i)) == Read(m, Along(up, r.hl, Origin(Distance(up, r.hl, r.de), i))))
      && (forall a: word :: OutsideRange(up, r.de, n, a) ==> Read(t.core.mem, a) == Read(m, a))
      && t.core.regs.bc == 0 && t.core.regs.de == Word(Along(up, r.de, n))
      && t.core.regs.hl == Word(Along(up, r.hl, n)) && !t.core.regs.f.pv
      && t.pc == Word(Here(s)) && t.core.dev == s.core.dev
      && cycles == Fetch(m, s.pc).cost - 8 + 21 * n - 5
  {
    hide Fetch, Clear, Loaded, Steps, Cost, Finishes, Safe, Schedule, Returned, Read, Along, OutsideRange,
      Distance, Origin;
    ghost var s := cpu.Now();
    LoadSchedule(cpu.bus, s, up, 0, budgets, plan);
    LoadReturned(cpu.bus, s, up, 0, budgets, plan);
    LoadMeaning(cpu.bus, s, up);
    cycles := RunSlices(cpu, budgets, plan);
  }

  // Searches.

  ghost function SearchedFrom<D>(s: State<D>, up: bool, j: nat): State<D>
    requires At(s, Compare, up) && j <= Count(s.core.regs.bc)
  {
    hide Searched;
    if j == 0 then s else Searched(s, up, j)
  }

  ghost predicate Unmatched<D>(s: State<D>, up: bool, n: nat) {
    hide NoMatch;
    NoMatch(s.core.mem, up, s.core.regs.hl, s.core.regs.a, n)
  }

  lemma UnmatchedSooner<D>(s: State<D>, up: bool, n: nat, k: nat)
    requires Unmatched(s, up, n) && k <= n
    ensures Unmatched(s, up, k)
  {
    hide Read;
  }

  lemma SearchedOn<D>(bus: Bus<D>, s: State<D>, up: bool, j: nat, k: nat)
    requires At(s, Compare, up) && j + k <= Count(s.core.regs.bc) && (j + k > 0 ==> Unmatched(s, up, j + k - 1))
    ensures Steps(bus, SearchedFrom(s, up, j), k) == SearchedFrom(s, up, j + k)
  {
    hide Fetch, Step, Searched, Steps, Cost, NoMatch;
    if j > 0 {
      UnmatchedSooner(s, up, j + k - 1, j - 1);
      SearchRun(bus, s, up, j);
      StepsAdd(bus, s, j, k);
    }
    if j + k > 0 {
      SearchRun(bus, s, up, j + k);
    }
    NoSteps(bus, SearchedFrom(s, up, j));
  }

  /** A search in progress is at its own instruction, with the count it has left. */
  lemma SearchGoesOn<D>(s: State<D>, up: bool, j: nat)
    requires At(s, Compare, up) && 0 < j < Count(s.core.regs.bc) && Searching(s, up, j)
    ensures var t := Searched(s, up, j); At(t, Compare, up) && t.core.regs.bc == Word(s.core.regs.bc - j) != 0
  {
    hide Fetch, Read, Along, SearchFlags, Word, Count;
    MoreLeft(s.core.regs.bc, j);
    OpcodeStays(s, s.core.mem);
  }

  lemma SearchNoTrap<D>(bus: Bus<D>, t: State<D>, up: bool, left: int)
    requires At(t, Compare, up)
    ensures !AliasTrap(bus, t) && (t.core.regs.bc != 0 ==> !CounterTrap(t, left))
  {
    hide Fetch, Step, Read, NoMatch, SearchFlags, Unfinished;
    StepOfRepeat(bus, t);
    BytesStay(t, t.core.mem);
  }

  lemma FinishesSome<D>(bus: Bus<D>, s: State<D>, left: int, k: nat)
    requires Finishes(bus, s, left, k)
    ensures k > 0
  {
  }

  lemma StillSearching<D>(s: State<D>, up: bool, j: nat, n: nat)
    requires At(s, Compare, up) && 0 < j < n <= Count(s.core.regs.bc) && Unmatched(s, up, n - 1)
    ensures Searching(s, up, j)
  {
    hide Fetch, Read;
  }

  /** A search meets no trap before its end, except at its very start with a zero count. */
  lemma {:induction false} SearchIsSafe<D>(bus: Bus<D>, s: State<D>, up: bool, left: int, j: nat, k: nat)
    requires At(s, Compare, up) && j + k <= Count(s.core.regs.bc) && (j + k > 0 ==> Unmatched(s, up, j + k - 1))
    requires j == 0 ==> !CounterTrap(s, left)
    ensures Safe(bus, SearchedFrom(s, up, j), left, k)
    decreases k
  {
    hide Fetch, Step, Searched, Searching, Unmatched, CounterTrap, AliasTrap;
    if k > 0 {
      var t := SearchedFrom(s, up, j);
      if j == 0 {
        SearchFirst(bus, s, up);
      } else {
        StillSearching(s, up, j, j + k);
        SearchGoesOn(s, up, j);
        SearchNext(bus, s, up, j + 1);
      }
      SearchNoTrap(bus, t, up, left);
      SearchIsSafe(bus, s, up, Left(Step(bus, t), left), j + 1, k - 1);
    }
  }

  lemma {:induction false} SearchSchedule<D>(bus: Bus<D>, s: State<D>, up: bool, j: nat, budgets: seq<nat>,
                                             plan: seq<nat>)
    requires At(s, Compare, up) && |budgets| == |plan| && j + Sum(plan) <= Count(s.core.regs.bc)
    requires j + Sum(plan) > 0 ==> Unmatched(s, up, j + Sum(plan) - 1)
    requires j == 0 && budgets != [] ==> !CounterTrap(s, budgets[0])
    requires Cuts(bus, SearchedFrom(s, up, j), budgets, plan)
    ensures Schedule(bus, SearchedFrom(s, up, j), budgets, plan)
    decreases |budgets|
  {
    hide Fetch, Searched, Unmatched, Steps, Finishes, Safe, CounterTrap;
    if budgets != [] {
      var n := j + Sum(plan);
      FinishesSome(bus, SearchedFrom(s, up, j), budgets[0], plan[0]);
      UnmatchedSooner(s, up, n - 1, j + plan[0] - 1);
      SearchIsSafe(bus, s, up, budgets[0], j, plan[0]);
      SearchedOn(bus, s, up, j, plan[0]);
      SearchSchedule(bus, s, up, j + plan[0], budgets[1..], plan[1..]);
    }
  }

  lemma SearchedTicks<D>(bus: Bus<D>, s: State<D>, up: bool, j: nat)
    requires At(s, Compare, up) && j < Count(s.core.regs.bc) && Unmatched(s, up, j)
    ensures var t := Step(bus, SearchedFrom(s, up, j)); t.Tick? && t.signal.Plain?
  {
    hide Fetch, Step, Searched, Searching, Unmatched;
    if j == 0 {
      SearchFirst(bus, s, up);
    } else {
      StillSearching(s, up, j, j + 1);
      SearchNext(bus, s, up, j + 1);
    }
  }

  lemma {:induction false} SearchReturned<D>(bus: Bus<D>, s: State<D>, up: bool, j: nat, budgets: seq<nat>,
                                             plan: seq<nat>)
    requires At(s, Compare, up) && |budgets| == |plan| && j + Sum(plan) <= Count(s.core.regs.bc)
    requires j + Sum(plan) > 0 ==> Unmatched(s, up, j + Sum(plan) - 1)
    requires Cuts(bus, SearchedFrom(s, up, j), budgets, plan)
    ensures Returned(bus, SearchedFrom(s, up, j), budgets, plan) == Cost(bus, SearchedFrom(s, up, j), Sum(plan))
    decreases |budgets|
  {
    hide Fetch, Step, SearchedFrom, Unmatched, Steps, Finishes, Reported, Cost;
    var t := SearchedFrom(s, up, j);
    if budgets == [] {
      NoSteps(bus, t);
    } else {
      var n, p := j + Sum(plan), plan[0];
      FinishesSome(bus, t, budgets[0], p);
      UnmatchedSooner(s, up, n - 1, j + p - 1);
      if j + p > 1 {
        UnmatchedSooner(s, up, n - 1, j + p - 2);
      }
      SearchedOn(bus, s, up, j, p - 1);
      SearchedTicks(bus, s, up, j + p - 1);
      ReportsBudget(bus, t, 0, budgets[0], p);
      SearchedOn(bus, s, up, j, p);
      SearchReturned(bus, s, up, j + p, budgets[1..], plan[1..]);
      StepsAdd(bus, t, p, Sum(plan[1..]));
    }
  }

  /** CPIR or CPDR over any number of slices that together make `n` iterations, the last of them on the
      first byte equal to A or, if there is none, at the end of the count. */
  method SearchInSlices<D>(cpu: Z80<D>, up: bool, ghost n: nat, budgets: seq<nat>, ghost plan: seq<nat>)
    returns (cycles: int)
    requires At(cpu.Now(), Compare, up) && 0 < n <= Count(cpu.regs.bc) && Unmatched(cpu.Now(), up, n - 1)
    requires n == Count(cpu.regs.bc) || Read(cpu.mem, Along(up, cpu.regs.hl, n - 1)) == cpu.regs.a
    requires Cuts(cpu.bus, cpu.Now(), budgets, plan) && Sum(plan) == n
    requires budgets != [] ==> !CounterTrap(cpu.Now(), budgets[0])
    modifies cpu
    ensures var s, t := old(cpu.Now()), cpu.Now();
      var r := s.core.regs;
      && t.core.mem == s.core.mem && t.core.dev == s.core.dev
      && t.core.regs == r.(bc := Word(r.bc - n), hl := Word(Along(up, r.hl, n)), f := t.core.regs.f)
      && (t.core.regs.f.z <==> Read(s.core.mem, Along(up, r.hl, n - 1)) == r.a)
      && (t.core.regs.f.pv <==> t.core.regs.bc != 0)
      && t.core.regs.f.c == r.f.c && t.core.regs.f.n && t.pc == Word(Here(s))
      && cycles == Fetch(s.core.mem, s.pc).cost - 8 + 21 * n - 5
  {
    hide Fetch, Searched, Steps, Cost, Finishes, Safe, Schedule, Returned, Read, Along, NoMatch, CounterTrap;
    ghost var s := cpu.Now();
    SearchSchedule(cpu.bus, s, up, 0, budgets, plan);
    SearchReturned(cpu.bus, s, up, 0, budgets, plan);
    SearchMeaning(cpu.bus, s, up, n);
    cycles := RunSlices(cpu, budgets, plan);
  }
}
