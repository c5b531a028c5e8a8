/**
 Rate limiters shared by all storages of one user: a registry of reference-counted limiters, and the
 storages that take and release them.  Limiters and storages are objects named by number, so that
 sharing is equality of numbers.  Every method is one step under the registry's lock; any sequence of
 calls is an interleaving of storages coming and going.
 */
module UserLimiter {
  const GLOBAL: string := ""

  type Ref = nat

  type Name = nat

  /** Where a storage is in its life: asking for its user id under the global limiter, between the two
      limiters, or ready under its user's. */
  datatype Phase = Idle | Asking | Switching | Ready(user: string)

  /** The registry, the limiter objects (count and the user each was made for), and every storage's
      limiter field and phase. */
  datatype Memory = Memory(
    limiters: map<string, Ref>,
    usedBy: map<Ref, int>,
    user: map<Ref, string>,
    held: map<Name, Ref>,
    phase: map<Name, Phase>,
    next: Ref)

  const EMPTY := Memory(map[], map[], map[], map[], map[], 0)

  // ---- the operations ----

  /** The deferred sweep: entries nobody uses go, except the global one. */
  function Sweep(m: Memory): Memory {
    m.(limiters := map id | id in m.limiters && (id == GLOBAL || m.limiters[id] !in m.usedBy || m.usedBy[m.limiters[id]] > 0)
                   :: m.limiters[id])
  }

  /** getLimiterForUser: the registered limiter or a new one, then the sweep. */
  function Get(m: Memory, user: string): (Memory, Ref) {
    if user in m.limiters && m.limiters[user] in m.usedBy then
      var l := m.limiters[user];
      (Sweep(m.(usedBy := m.usedBy[l := m.usedBy[l] + 1])), l)
    else
      (Sweep(m.(limiters := m.limiters[user := m.next], usedBy := m.usedBy[m.next := 1],
                user := m.user[m.next := user], next := m.next + 1)), m.next)
  }

  /** Afterwards the caller's limiter is the one registered for the user, and no other entry but the global one is
      without users. */
  lemma NothingIdleStays(m: Memory, user: string, id: string)
    requires forall l :: l in m.usedBy ==> l < m.next && m.usedBy[l] >= 0
    requires forall a, b :: a in m.limiters && b in m.limiters && m.limiters[a] == m.limiters[b] ==> a == b
    ensures var (m', l) := Get(m, user);
      && user in m'.limiters && m'.limiters[user] == l && l in m'.usedBy && m'.usedBy[l] > 0
      && (id in m'.limiters && id != GLOBAL && m'.limiters[id] in m'.usedBy ==> m'.usedBy[m'.limiters[id]] > 0)
      && (id in m.limiters && m.limiters[id] in m.usedBy && m.usedBy[m.limiters[id]] > 0 ==> id in m'.limiters)
  {
  }

  /** free; a nil limiter is left alone. */
  function Free(m: Memory, s: Name): Memory {
    if s in m.held && m.held[s] in m.usedBy then m.(usedBy := m.usedBy[m.held[s] := m.usedBy[m.held[s]] - 1]) else m
  }

  function PhaseOf(m: Memory, s: Name): Phase {
    if s in m.phase then m.phase[s] else Idle
  }

  function Take(m: Memory, s: Name, user: string, p: Phase): Memory {
    var (m', l) := Get(m, user);
    m'.(held := m'.held[s := l], phase := m'.phase[s := p])
  }

  function Release(m: Memory, s: Name): Memory {
    var m' := Free(m, s);
    m'.(held := m'.held - {s}, phase := m'.phase[s := Idle])
  }

  /** The steps of a storage's life, each enabled in one phase. */
  datatype Step =
    | InitBegin(s: Name)
    | InitFail(s: Name)
    | InitRelease(s: Name)
    | InitUser(s: Name, user: string)
    | Drop(s: Name)

  predicate Enabled(m: Memory, step: Step) {
    match step
    case InitBegin(s) => PhaseOf(m, s) == Idle
    case InitFail(s) => PhaseOf(m, s) == Asking
    case InitRelease(s) => PhaseOf(m, s) == Asking
    case InitUser(s, _) => PhaseOf(m, s) == Switching
    case Drop(s) => PhaseOf(m, s) == Idle || PhaseOf(m, s).Ready?
  }

  function Next(m: Memory, step: Step): Memory {
    match step
    case InitBegin(s) => Take(m, s, GLOBAL, Asking)
    case InitFail(s) => Release(m, s)
    case InitRelease(s) => Free(m, s).(phase := m.phase[s := Switching])
    case InitUser(s, user) => Take(m, s, user, Ready(user))
    case Drop(s) => Release(m, s)
  }

  // ---- the invariant ----

  /** Does the storage count on its limiter?  Between the two limiters it does not. */
  predicate Counts(p: Phase) {
    p.Asking? || p.Ready?
  }

  function UserOf(p: Phase): string {
    if p.Ready? then p.user else GLOBAL
  }

  /** The storages that live on limiter `l`. */
  function Holders(m: Memory, l: Ref): set<Name> {
    set s | s in m.phase && Counts(m.phase[s]) && s in m.held && m.held[s] == l
  }

  /** Registry entries name existing limiters of the right user. */
  ghost predicate Registered(m: Memory) {
    && m.usedBy.Keys == m.user.Keys
    && (forall l :: l in m.usedBy ==> l < m.next)
    && (forall id :: id in m.limiters ==> m.limiters[id] in m.user && m.user[m.limiters[id]] == id)
  }

  /** Every count is the number of live holders. */
  ghost predicate Counted(m: Memory) {
    forall l :: l in m.usedBy ==> m.usedBy[l] == |Holders(m, l)|
  }

  /** Enough to know what Get does. */
  ghost predicate Sane(m: Memory) {
    Registered(m) && forall l :: l in m.usedBy ==> m.usedBy[l] >= 0
  }

  /** A storage that counts on a limiter counts on the one registered for its user. */
  ghost predicate Settled(m: Memory, s: Name) {
    match PhaseOf(m, s)
    case Idle => s !in m.held
    case Switching => true
    case Asking => GLOBAL in m.limiters && s in m.held && m.held[s] == m.limiters[GLOBAL]
    case Ready(user) => user in m.limiters && s in m.held && m.held[s] == m.limiters[user]
  }

  ghost predicate Inv(m: Memory) {
    Registered(m) && Counted(m) && forall s: Name :: Settled(m, s)
  }

  lemma EmptyInv()
    ensures Inv(EMPTY)
  {
  }

  // ---- every step keeps it ----

  /** A limiter somebody counts on has a positive count, so no sweep takes it. */
  lemma HeldIsUsed(m: Memory, s: Name)
    requires Registered(m) && Counted(m) && Settled(m, s) && Counts(PhaseOf(m, s))
    ensures s in m.held && m.held[s] in m.usedBy && m.usedBy[m.held[s]] > 0
    ensures UserOf(PhaseOf(m, s)) in m.limiters && m.held[s] == m.limiters[UserOf(PhaseOf(m, s))]
  {
    assert s in Holders(m, m.held[s]);
  }

  lemma NobodyHoldsNew(m: Memory, l: Ref)
    requires l >= m.next
    ensures Inv(m) ==> Holders(m, l) == {}
  {
    if Inv(m) {
      forall s: Name
        ensures s !in Holders(m, l)
      {
        assert Settled(m, s);
      }
    }
  }

  /** One more holder. */
  lemma HoldersTaken(m: Memory, m': Memory, s: Name, l: Ref, p: Phase)
    requires !Counts(PhaseOf(m, s)) && Counts(p)
    requires m'.held == m.held[s := l] && m'.phase == m.phase[s := p]
    ensures Holders(m', l) == Holders(m, l) + {s} && s !in Holders(m, l)
    ensures forall k :: k != l ==> Holders(m', k) == Holders(m, k)
  {
    forall k | k != l
      ensures Holders(m', k) == Holders(m, k)
    {
    }
  }

  /** One holder fewer. */
  lemma HoldersReleased(m: Memory, m': Memory, s: Name, p: Phase)
    requires Counts(PhaseOf(m, s)) && s in m.held && !Counts(p)
    requires m'.held == m.held || m'.held == m.held - {s}
    requires m'.phase == m.phase[s := p]
    ensures Holders(m', m.held[s]) == Holders(m, m.held[s]) - {s} && s in Holders(m, m.held[s])
    ensures forall k :: k != m.held[s] ==> Holders(m', k) == Holders(m, k)
  {
    forall k | k != m.held[s]
      ensures Holders(m', k) == Holders(m, k)
    {
    }
  }

  /** What Get changes: one count goes up by one or one limiter with count one appears; the sweep drops
      only entries whose count is zero. */
  lemma GetFacts(m: Memory, user: string)
    ensures Sane(m) ==> var (m', l) := Get(m, user);
      && Registered(m') && m'.held == m.held && m'.phase == m.phase
      && user in m'.limiters && m'.limiters[user] == l
      && (forall k :: k in m'.usedBy ==> k in m.usedBy || k == l)
      && (forall k :: k in m.usedBy && k != l ==> k in m'.usedBy && m'.usedBy[k] == m.usedBy[k])
      && l in m'.usedBy && m'.usedBy[l] == (if l in m.usedBy then m.usedBy[l] else 0) + 1
      && (l !in m.usedBy ==> l == m.next) && (user in m.limiters ==> l == m.limiters[user])
      && (forall id :: id in m.limiters && id != user && (id == GLOBAL || m.usedBy[m.limiters[id]] > 0) ==>
            id in m'.limiters && m'.limiters[id] == m.limiters[id])
  {
  }

  lemma TakeKeeps(m: Memory, s: Name, user: string, p: Phase)
    requires !Counts(PhaseOf(m, s)) && Counts(p) && UserOf(p) == user
    ensures Inv(m) ==> Inv(Take(m, s, user, p))
  {
    if Inv(m) {
      TakeCounts(m, s, user, p);
      hide Take, Counted, Registered, Settled;
      forall t: Name
        ensures Settled(Take(m, s, user, p), t)
      {
        TakeSettles(m, s, user, p, t);
      }
    }
  }

  lemma TakeCounts(m: Memory, s: Name, user: string, p: Phase)
    requires !Counts(PhaseOf(m, s)) && Counts(p) && UserOf(p) == user
    ensures Inv(m) ==> Registered(Take(m, s, user, p)) && Counted(Take(m, s, user, p))
  {
    if Inv(m) {
      var (g, l) := Get(m, user);
      GetFacts(m, user);
      NobodyHoldsNew(m, m.next);
      hide Get, Holders, Settled;
      HoldersTaken(m, Take(m, s, user, p), s, l, p);
    }
  }

  lemma TakeSettles(m: Memory, s: Name, user: string, p: Phase, t: Name)
    requires Inv(m) && !Counts(PhaseOf(m, s)) && Counts(p) && UserOf(p) == user
    ensures Settled(Take(m, s, user, p), t)
  {
    GetFacts(m, user);
    hide Get, Holders;
    if t != s {
      assert Settled(m, t);
      if Counts(PhaseOf(m, t)) { HeldIsUsed(m, t); }
    }
  }

  lemma ReleaseKeeps(m: Memory, s: Name, m': Memory, p: Phase)
    requires Counts(PhaseOf(m, s)) && (p == Idle || p == Switching)
    requires m' == Free(m, s).(held := if p == Idle then m.held - {s} else m.held, phase := m.phase[s := p])
    ensures Inv(m) ==> Inv(m')
  {
    if Inv(m) {
      assert Settled(m, s);
      HeldIsUsed(m, s);
      HoldersReleased(m, m', s, p);
      assert Counted(m');
      forall t: Name
        ensures Settled(m', t)
      {
        assert Settled(m, t);
      }
    }
  }

  /** The invariant over every step of every storage. */
  lemma StepKeeps(m: Memory, step: Step)
    requires Enabled(m, step)
    ensures Inv(m) ==> Inv(Next(m, step))
  {
    hide Inv, Take;
    match step
    case InitBegin(s) => TakeKeeps(m, s, GLOBAL, Asking);
    case InitFail(s) => ReleaseKeeps(m, s, Next(m, step), Idle);
    case InitRelease(s) => ReleaseKeeps(m, s, Next(m, step), Switching);
    case InitUser(s, user) => TakeKeeps(m, s, user, Ready(user));
    case Drop(s) =>
      if PhaseOf(m, s) == Idle {
        DropIdle(m, s);
      } else {
        ReleaseKeeps(m, s, Next(m, step), Idle);
      }
  }

  /** Dropping a storage that holds nothing changes no count. */
  lemma DropIdle(m: Memory, s: Name)
    requires PhaseOf(m, s) == Idle
    ensures Inv(m) ==>
      && Inv(Release(m, s))
      && Release(m, s).usedBy == m.usedBy && Release(m, s).limiters == m.limiters
  {
    if Inv(m) {
      assert Settled(m, s);
      var m' := Release(m, s);
      forall k
        ensures Holders(m', k) == Holders(m, k)
      {
      }
      forall t: Name
        ensures Settled(m', t)
      {
        assert Settled(m, t);
      }
    }
  }

  // ---- in place ----

  /** The process: the global map, the limiter objects and the storages' fields, changed in place. */
  class Process {
    var limiters: map<string, Ref>
    var usedBy: map<Ref, int>
    var user: map<Ref, string>
    var held: map<Name, Ref>
    var phase: map<Name, Phase>
    var next: Ref

    function State(): Memory
      reads this
    {
      Memory(limiters, usedBy, user, held, phase, next)
    }

    constructor ()
      ensures State() == EMPTY && Inv(State())
    {
      limiters, usedBy, user, held, phase, next := map[], map[], map[], map[], map[], 0;
    }

    /** The deferred loop over the registry. */
    method SweepAll()
      modifies this`limiters
      ensures State() == old(Sweep(State()))
    {
      var ids := limiters.Keys;
      ghost var before := limiters;
      while ids != {}
        invariant ids <= before.Keys
        invariant limiters == map id | id in before && (id in ids || id == GLOBAL || before[id] !in usedBy || usedBy[before[id]] > 0)
                                :: before[id]
        decreases |ids|
      {
        var id :| id in ids;
        var l := limiters[id];
        if l in usedBy && usedBy[l] <= 0 && id != GLOBAL {
          limiters := limiters - {id};
        }
        ids := ids - {id};
      }
    }

    /** getLimiterForUser */
    method GetLimiterForUser(userId: string) returns (l: Ref)
      modifies this
      ensures State() == old(Get(State(), userId)).0 && l == old(Get(State(), userId)).1
    {
      if userId in limiters && limiters[userId] in usedBy {
        l := limiters[userId];
        usedBy := usedBy[l := usedBy[l] + 1];
      } else {
        l := next;
        limiters, usedBy, user, next := limiters[userId := l], usedBy[l := 1], user[l := userId], next + 1;
      }
      SweepAll();
    }

    /** free on the storage's limiter. */
    method FreeLimiter(s: Name)
      modifies this`usedBy
      ensures State() == old(Free(State(), s))
    {
      if s in held && held[s] in usedBy {
        usedBy := usedBy[held[s] := usedBy[held[s]] - 1];
      }
    }

    /** One step of one storage: the pieces of Init and Drop, in place. */
    method Perform(step: Step)
      requires Inv(State()) && Enabled(State(), step)
      modifies this
      ensures State() == old(Next(State(), step)) && Inv(State())
    {
      StepKeeps(State(), step);
      hide Inv, Get, Free;
      match step
      case InitBegin(s) =>
        var l := GetLimiterForUser(GLOBAL);
        held, phase := held[s := l], phase[s := Asking];
      case InitFail(s) =>
        FreeLimiter(s);
        held, phase := held - {s}, phase[s := Idle];
      case InitRelease(s) =>
        FreeLimiter(s);
        phase := phase[s := Switching];
      case InitUser(s, userId) =>
        var l := GetLimiterForUser(userId);
        held, phase := held[s := l], phase[s := Ready(userId)];
      case Drop(s) =>
        FreeLimiter(s);
        held, phase := held - {s}, phase[s := Idle];
    }
  }
}
