/** What holds over every interleaving of storages that take and release limiters. */
module LimiterRuns {
  import opened UserLimiter

  predicate AllEnabled(m: Memory, steps: seq<Step>)
    decreases |steps|
  {
    steps == [] || (Enabled(m, steps[0]) && AllEnabled(Next(m, steps[0]), steps[1..]))
  }

  function After(m: Memory, steps: seq<Step>): Memory
    decreases |steps|
  {
    if steps == [] then m else After(Next(m, steps[0]), steps[1..])
  }

  /** The invariant over every interleaving. */
  lemma {:induction false} RunKeeps(m: Memory, steps: seq<Step>)
    requires Inv(m) && AllEnabled(m, steps)
    ensures Inv(After(m, steps))
    decreases |steps|
  {
    if steps != [] {
      StepKeeps(m, steps[0]);
      RunKeeps(Next(m, steps[0]), steps[1..]);
    }
  }

  /** A storage that is idle can be taken through its whole life, or through an Init that fails, whatever the
      others are at; after the one it is ready under its user until it is dropped, and after the other idle again. */
  lemma WholeLife(m: Memory, s: Name, user: string)
    requires PhaseOf(m, s) == Idle
    ensures var up := [InitBegin(s), InitRelease(s), InitUser(s, user)];
      && AllEnabled(m, up) && PhaseOf(After(m, up), s) == Ready(user)
      && Enabled(After(m, up), Drop(s)) && PhaseOf(Next(After(m, up), Drop(s)), s) == Idle
    ensures var failed := [InitBegin(s), InitFail(s)]; AllEnabled(m, failed) && PhaseOf(After(m, failed), s) == Idle
  {
    var begin, release, switch, fail := InitBegin(s), InitRelease(s), InitUser(s, user), InitFail(s);
    var a := Next(m, begin);
    var b := Next(a, release);
    Phases(m, s, user);
    Phases(a, s, user);
    Phases(b, s, user);
    Phases(Next(b, switch), s, user);
    hide Next, Enabled, PhaseOf;
    OneAfterAnother(m, begin, release, switch);
    OneAfterAnother(m, begin, fail, begin);
  }

  lemma OneAfterAnother(m: Memory, a: Step, b: Step, c: Step)
    ensures AllEnabled(m, [a, b]) <==> Enabled(m, a) && Enabled(Next(m, a), b)
    ensures After(m, [a, b]) == Next(Next(m, a), b)
    ensures AllEnabled(m, [a, b, c]) <==> Enabled(m, a) && Enabled(Next(m, a), b) && Enabled(Next(Next(m, a), b), c)
    ensures After(m, [a, b, c]) == Next(Next(Next(m, a), b), c)
  {
    StepFirst(m, a, [b]);
    StepFirst(m, a, [b, c]);
    StepFirst(Next(m, a), b, []);
    StepFirst(Next(m, a), b, [c]);
    StepFirst(Next(Next(m, a), b), c, []);
    hide Next, Enabled;
    assert [a] + [b] == [a, b] && [a] + [b, c] == [a, b, c] && [b] + [c] == [b, c] && [b] + [] == [b] && [c] + [] == [c];
  }

  lemma StepFirst(m: Memory, a: Step, rest: seq<Step>)
    ensures AllEnabled(m, [a] + rest) <==> Enabled(m, a) && AllEnabled(Next(m, a), rest)
    ensures After(m, [a] + rest) == After(Next(m, a), rest)
  {
    assert ([a] + rest)[1..] == rest;
    hide Next, Enabled;
  }

  /** What each step makes of the phase, and when it is enabled. */
  lemma Phases(m: Memory, s: Name, user: string)
    ensures PhaseOf(m, s) == Idle ==> Enabled(m, InitBegin(s)) && PhaseOf(Next(m, InitBegin(s)), s) == Asking
    ensures PhaseOf(m, s) == Asking ==> Enabled(m, InitRelease(s)) && PhaseOf(Next(m, InitRelease(s)), s) == Switching
    ensures PhaseOf(m, s) == Asking ==> Enabled(m, InitFail(s)) && PhaseOf(Next(m, InitFail(s)), s) == Idle
    ensures PhaseOf(m, s) == Switching ==>
      Enabled(m, InitUser(s, user)) && PhaseOf(Next(m, InitUser(s, user)), s) == Ready(user)
    ensures PhaseOf(m, s).Ready? ==> Enabled(m, Drop(s)) && PhaseOf(Next(m, Drop(s)), s) == Idle
  {
  }

  /** Live storages share a limiter exactly when they are of the same user. */
  lemma SharedByUser(m: Memory, s: Name, t: Name)
    requires Inv(m) && PhaseOf(m, s).Ready? && PhaseOf(m, t).Ready?
    ensures s in m.held && t in m.held
    ensures m.held[s] == m.held[t] <==> PhaseOf(m, s) == PhaseOf(m, t)
  {
    assert Settled(m, s) && Settled(m, t);
  }

  /** A held limiter is never evicted, whatever the other storages do. */
  lemma HeldStays(m: Memory, step: Step, s: Name)
    requires Inv(m) && Enabled(m, step) && step.s != s && Counts(PhaseOf(m, s))
    ensures var m' := Next(m, step); var user := UserOf(PhaseOf(m, s));
      && PhaseOf(m', s) == PhaseOf(m, s) && s in m'.held && m'.held[s] == m.held[s]
      && user in m'.limiters && m'.limiters[user] == m.held[s]
  {
    assert Settled(m, s);
    HeldIsUsed(m, s);
    var m' := Next(m, step);
    StepKeeps(m, step);
    assert Settled(m', s);
    match step
    case InitBegin(_) => GetFacts(m, GLOBAL);
    case InitUser(_, user) => GetFacts(m, user);
    case InitFail(_) =>
    case InitRelease(_) =>
    case Drop(_) =>
  }

  /** The global entry is made once and for all. */
  lemma {:induction false} GlobalStays(m: Memory, steps: seq<Step>)
    requires Inv(m) && AllEnabled(m, steps) && GLOBAL in m.limiters
    ensures GLOBAL in After(m, steps).limiters && After(m, steps).limiters[GLOBAL] == m.limiters[GLOBAL]
    decreases |steps|
  {
    if steps != [] {
      var step := steps[0];
      match step {
        case InitBegin(_) => GetFacts(m, GLOBAL);
        case InitUser(_, user) => GetFacts(m, user);
        case InitFail(_) =>
        case InitRelease(_) =>
        case Drop(_) =>
      }
      assert GLOBAL in Next(m, step).limiters && Next(m, step).limiters[GLOBAL] == m.limiters[GLOBAL];
      StepKeeps(m, step);
      GlobalStays(Next(m, step), steps[1..]);
    }
  }
}
