/** The distributed concurrency gate: a sorted set of lease deadlines in Redis, changed by three
    atomic scripts (internal/coord/redis.go). Times are milliseconds. */
module Lease {
  /** `leases` is the sorted set, `deadline` the time the key itself vanishes; no key without
      members. */
  datatype Slots = Slots(leases: map<int, int>, deadline: int)

  function Unexpired(leases: map<int, int>, t: int): map<int, int> {
    map m | m in leases && leases[m] > t :: leases[m]
  }

  /** Drops the leases that ended by t, and adds one if there is room. Only this script sets the
      key's time to live. */
  function Acquire(s: Slots, now: int, t: int, max: nat, lease: nat, m: int): (Slots, bool) {
    var kept := Unexpired(s.leases, t);
    if |kept| < max then (Slots(kept[m := t + lease], now + 4 * lease), true)
    else (s.(leases := kept), false)
  }

  /** Extends a lease that is still listed. */
  function Renew(s: Slots, t: int, lease: nat, m: int): Slots {
    if m in s.leases then s.(leases := s.leases[m := t + lease]) else s
  }

  function Release(s: Slots, m: int): Slots {
    s.(leases := s.leases - {m})
  }

  /** The key and all its members vanish together. */
  function Elapse(s: Slots, now: int): Slots {
    if s.deadline <= now then s.(leases := map[]) else s
  }

  /** The key as the server changes it. */
  class SlotKey {
    var leases: map<int, int>
    var deadline: int

    constructor ()
      ensures View().leases == map[]
    {
      leases, deadline := map[], 0;
    }

    function View(): Slots
      reads this
    {
      Slots(leases, deadline)
    }

    method AcquireScript(now: int, t: int, max: nat, lease: nat, m: int) returns (ok: bool)
      modifies this
      ensures (View(), ok) == Acquire(old(View()), now, t, max, lease, m)
    {
      leases := map k | k in leases && !(leases[k] <= t) :: leases[k];
      assert leases == Unexpired(old(leases), t);
      if |leases| < max {
        leases := leases[m := t + lease];
        deadline := now + 4 * lease;
        return true;
      }
      return false;
    }

    method RenewScript(t: int, lease: nat, m: int) returns (changed: bool)
      modifies this
      ensures View() == Renew(old(View()), t, lease, m)
      ensures changed <==> m in old(leases) && old(leases)[m] != t + lease
    {
      changed := false;
      if m in leases {
        changed := leases[m] != t + lease;
        leases := leases[m := t + lease];
      }
    }

    method ReleaseScript(m: int) returns (removed: bool)
      modifies this
      ensures View() == Release(old(View()), m)
      ensures removed <==> m in old(leases)
    {
      removed := m in leases;
      leases := leases - {m};
    }
  }

  // ---- Many gateways at once ----

  /** `holders` are the calls running in a slot, with the end of the lease last granted to each;
      `granted` every member name ever used; `lost` those whose entry went with the whole key. */
  datatype World = World(now: int, slots: Slots, holders: map<int, int>, granted: set<int>, lost: set<int>)

  /** The time a script is called with may be older than the time it runs. */
  datatype Step =
    | Tick(now: int)
    | TryAcquire(m: int, t: int)
    | Heartbeat(m: int, t: int)
    | Free(m: int)
    | Crash(m: int)

  function Next(w: World, step: Step, max: nat, lease: nat): World {
    match step
    case Tick(now) =>
      var gone := if w.slots.deadline <= now then w.slots.leases.Keys else {};
      w.(now := now, slots := Elapse(w.slots, now), lost := w.lost + gone)
    case TryAcquire(m, t) =>
      var (slots, ok) := Acquire(w.slots, w.now, t, max, lease, m);
      if ok then w.(slots := slots, holders := w.holders[m := t + lease], granted := w.granted + {m})
      else w.(slots := slots)
    case Heartbeat(m, t) =>
      w.(slots := Renew(w.slots, t, lease, m),
         holders := if m in w.slots.leases && m in w.holders then w.holders[m := t + lease] else w.holders)
    case Free(m) => w.(slots := Release(w.slots, m), holders := w.holders - {m})
    case Crash(m) => w.(holders := w.holders - {m})
  }

  /** Clocks are never ahead of the server's, and member names are never used twice. */
  predicate Lawful(w: World, step: Step) {
    match step
    case Tick(now) => w.now <= now
    case TryAcquire(m, t) => t <= w.now && m !in w.granted
    case Heartbeat(_, t) => t <= w.now
    case _ => true
  }

  function Run(w: World, steps: seq<Step>, max: nat, lease: nat): World
    decreases |steps|
  {
    if steps == [] then w else Run(Next(w, steps[0], max, lease), steps[1..], max, lease)
  }

  predicate LawfulRun(w: World, steps: seq<Step>, max: nat, lease: nat)
    decreases |steps|
  {
    steps == [] || (Lawful(w, steps[0]) && LawfulRun(Next(w, steps[0], max, lease), steps[1..], max, lease))
  }

  const START := World(0, Slots(map[], 0), map[], {}, {})

  /** Calls that run in a slot whose lease has not ended. */
  function Live(w: World): set<int> {
    set m | m in w.holders && w.now < w.holders[m]
  }

  ghost predicate Inv(w: World, max: nat, lease: nat) {
    && |w.slots.leases| <= max
    && w.holders.Keys <= w.granted && w.slots.leases.Keys <= w.granted && w.lost <= w.granted
    && w.lost !! w.slots.leases.Keys
    && (forall m :: m in Live(w) && m !in w.lost ==> m in w.slots.leases && w.slots.leases[m] == w.holders[m])
    && (forall m :: m in w.slots.leases ==> w.slots.leases[m] <= w.now + lease)
  }

  lemma FewerKeys(a: map<int, int>, b: map<int, int>)
    requires a.Keys <= b.Keys
    ensures |a| <= |b|
  {
    SubsetSize(a.Keys, b.Keys);
  }

  lemma {:induction false} SubsetSize<T>(a: set<T>, b: set<T>)
    requires a <= b
    ensures |a| <= |b|
  {
    if a != {} {
      var x :| x in a;
      SubsetSize(a - {x}, b - {x});
    }
  }

  lemma OneMore(kept: map<int, int>, m: int, v: int)
    ensures |kept[m := v]| <= |kept| + 1
  {
    assert kept[m := v].Keys == kept.Keys + {m};
  }

  lemma StepInv(w: World, step: Step, max: nat, lease: nat)
    requires Inv(w, max, lease) && Lawful(w, step)
    ensures Inv(Next(w, step, max, lease), max, lease)
  {
    var w' := Next(w, step, max, lease);
    match step {
      case TryAcquire(m, t) =>
        var kept := Unexpired(w.slots.leases, t);
        FewerKeys(kept, w.slots.leases);
        OneMore(kept, m, t + lease);
      case Heartbeat(m, t) =>
        assert w'.slots.leases.Keys == w.slots.leases.Keys;
        FewerKeys(w'.slots.leases, w.slots.leases);
      case Free(m) => FewerKeys(w'.slots.leases, w.slots.leases);
      case Tick(now) => FewerKeys(w'.slots.leases, w.slots.leases);
      case Crash(m) =>
    }
  }

  lemma {:induction false} RunInv(w: World, steps: seq<Step>, max: nat, lease: nat)
    requires Inv(w, max, lease) && LawfulRun(w, steps, max, lease)
    ensures Inv(Run(w, steps, max, lease), max, lease)
    decreases |steps|
  {
    hide Inv, Lawful, Next;
    if steps != [] {
      StepInv(w, steps[0], max, lease);
      RunInv(Next(w, steps[0], max, lease), steps[1..], max, lease);
    }
  }

  /** In every interleaving: the set never holds more than max members; the live calls missing from
      it are exactly those whose entry went with the key; so the gate is only ever exceeded by
      them. */
  lemma GateHolds(steps: seq<Step>, max: nat, lease: nat)
    requires LawfulRun(START, steps, max, lease)
    ensures var w := Run(START, steps, max, lease);
            && |w.slots.leases| <= max
            && Live(w) - w.slots.leases.Keys == Live(w) * w.lost
            && |Live(w)| <= max + |Live(w) * w.lost|
  {
    RunInv(START, steps, max, lease);
    var w := Run(START, steps, max, lease);
    forall m | m in Live(w) ensures m in w.slots.leases.Keys + w.lost {
      assert m !in w.lost ==> m in w.slots.leases;
    }
    CoveredByTwo(Live(w), w.slots.leases.Keys, w.lost);
  }

  lemma CoveredByTwo<T>(a: set<T>, b: set<T>, c: set<T>)
    requires a <= b + c && b !! c
    ensures a - b == a * c && |a| <= |b| + |a * c|
  {
    assert a == a * b + a * c;
    SubsetSize(a * b, b);
  }

  // ---- When the key vanishes ----

  /** The clock never reaches the key's deadline while it has members: some call was admitted within
      the last four leases. */
  predicate Busy(w: World, steps: seq<Step>, max: nat, lease: nat)
    decreases |steps|
  {
    steps == [] || ((steps[0].Tick? ==> steps[0].now < w.slots.deadline || w.slots.leases == map[])
                    && Busy(Next(w, steps[0], max, lease), steps[1..], max, lease))
  }

  lemma {:induction false} LostGrows(w: World, steps: seq<Step>, max: nat, lease: nat)
    ensures w.lost <= Run(w, steps, max, lease).lost
    decreases |steps|
  {
    if steps != [] { LostGrows(Next(w, steps[0], max, lease), steps[1..], max, lease); }
  }

  /** No entry goes with the key exactly when some call is admitted within every four leases in which
      the key has members. */
  lemma {:induction false} BusyExact(w: World, steps: seq<Step>, max: nat, lease: nat)
    requires Inv(w, max, lease) && LawfulRun(w, steps, max, lease)
    ensures Busy(w, steps, max, lease) <==> Run(w, steps, max, lease).lost == w.lost
    decreases |steps|
  {
    hide Lawful, Next;
    if steps != [] {
      var w1 := Next(w, steps[0], max, lease);
      StepInv(w, steps[0], max, lease);
      BusyExact(w1, steps[1..], max, lease);
      LostGrows(w1, steps[1..], max, lease);
      if steps[0].Tick? { ExpiryLoses(w, steps[0].now, max, lease); }
      if !steps[0].Tick? { NothingLost(w, steps[0], max, lease); }
      if w1.lost != w.lost { StaysMore(w.lost, w1.lost, Run(w1, steps[1..], max, lease).lost); }
    }
  }

  lemma NothingLost(w: World, step: Step, max: nat, lease: nat)
    requires !step.Tick? || step.now < w.slots.deadline
    ensures Next(w, step, max, lease).lost == w.lost
  {
  }

  lemma StaysMore<T>(a: set<T>, b: set<T>, c: set<T>)
    requires a <= b <= c && a != b
    ensures a != c
  {
  }

  lemma ExpiryLoses(w: World, now: int, max: nat, lease: nat)
    requires w.lost !! w.slots.leases.Keys
    ensures w.lost <= Next(w, Tick(now), max, lease).lost
    ensures Next(w, Tick(now), max, lease).lost == w.lost <==> now < w.slots.deadline || w.slots.leases == map[]
  {
    NothingToLose(w.lost, w.slots.leases.Keys);
    assert w.slots.leases == map[] <==> w.slots.leases.Keys == {};
  }

  lemma NothingToLose<T>(a: set<T>, b: set<T>)
    requires a !! b
    ensures a + b == a <==> b == {}
  {
    if b != {} {
      var x :| x in b;
      assert x in a + b && x !in a;
    }
  }

  /** The key never vanishes under a running call whose lease reaches beyond that moment. */
  predicate Spared(w: World, steps: seq<Step>, max: nat, lease: nat)
    decreases |steps|
  {
    steps == [] ||
    ((steps[0].Tick? && w.slots.deadline <= steps[0].now ==>
        forall m :: m in w.slots.leases && m in w.holders ==> w.holders[m] <= steps[0].now)
     && Spared(Next(w, steps[0], max, lease), steps[1..], max, lease))
  }

  predicate AllListed(w: World) { Live(w) <= w.slots.leases.Keys }

  lemma SubsetIf<T>(a: set<T>, b: set<T>)
    requires forall x :: x in a ==> x in b
    ensures a <= b
  {
  }

  lemma ExpiryListed(w: World, now: int, max: nat, lease: nat)
    requires w.slots.deadline <= now && w.now <= now && AllListed(w)
    ensures AllListed(Next(w, Tick(now), max, lease))
       <==> forall m :: m in w.slots.leases && m in w.holders ==> w.holders[m] <= now
  {
    var w' := Next(w, Tick(now), max, lease);
    assert w'.slots.leases == map[];
    forall m | m in Live(w') ensures m in w.slots.leases && m in w.holders && w.holders[m] > now {
      assert m in Live(w);
    }
    if m :| m in w.slots.leases && m in w.holders && w.holders[m] > now {
      assert m in Live(w') && m !in w'.slots.leases.Keys;
    } else {
      assert forall m :: m !in Live(w');
      SubsetIf(Live(w'), w'.slots.leases.Keys);
    }
  }

  lemma OtherListed(w: World, step: Step, max: nat, lease: nat)
    requires Inv(w, max, lease) && Lawful(w, step) && AllListed(w) && (!step.Tick? || step.now < w.slots.deadline)
    ensures AllListed(Next(w, step, max, lease))
  {
    StepInv(w, step, max, lease);
    NothingLost(w, step, max, lease);
    LiveNotLost(w, step, max, lease);
    hide Next, Lawful;
    var w' := Next(w, step, max, lease);
    forall m | m in Live(w') ensures m in w'.slots.leases.Keys {
      assert m !in w'.lost;
      assert m in w'.slots.leases;
    }
  }

  lemma StepListed(w: World, step: Step, max: nat, lease: nat)
    requires Inv(w, max, lease) && Lawful(w, step) && AllListed(w)
    ensures AllListed(Next(w, step, max, lease)) <==> Spared(w, [step], max, lease)
  {
    hide Inv, AllListed, Next;
    assert [step][1..] == [] && Spared(Next(w, step, max, lease), [], max, lease);
    if step.Tick? && w.slots.deadline <= step.now {
      ExpiryListed(w, step.now, max, lease);
    } else {
      OtherListed(w, step, max, lease);
    }
  }

  lemma LiveNotLost(w: World, step: Step, max: nat, lease: nat)
    requires Inv(w, max, lease) && Lawful(w, step) && AllListed(w) && (!step.Tick? || step.now < w.slots.deadline)
    ensures Live(Next(w, step, max, lease)) !! w.lost
  {
    var w' := Next(w, step, max, lease);
    forall m | m in Live(w') ensures m !in w.lost {
      if m in Live(w) {
        assert m in w.slots.leases.Keys;
      }
    }
  }

  /** At every moment of a run each live call is in the set, so that no more than max are live, exactly
      when the key never vanishes under one. */
  lemma {:induction false} ListedExact(w: World, steps: seq<Step>, max: nat, lease: nat)
    requires Inv(w, max, lease) && LawfulRun(w, steps, max, lease) && AllListed(w)
    ensures (forall i :: 0 <= i <= |steps| ==> AllListed(Run(w, steps[..i], max, lease)))
       <==> Spared(w, steps, max, lease)
    decreases |steps|
  {
    hide Inv, Lawful, Next, AllListed;
    assert Run(w, steps[..0], max, lease) == w;
    if steps != [] {
      var w1, rest := Next(w, steps[0], max, lease), steps[1..];
      StepInv(w, steps[0], max, lease);
      StepListed(w, steps[0], max, lease);
      assert Spared(w1, [], max, lease) && [steps[0]][1..] == [];
      assert Run(w1, rest[..0], max, lease) == w1;
      forall i | 0 <= i <= |rest| ensures Run(w, steps[..i + 1], max, lease) == Run(w1, rest[..i], max, lease) {
        assert steps[..i + 1][1..] == rest[..i];
      }
      assert forall i :: 0 < i <= |steps| ==> Run(w, steps[..i], max, lease) == Run(w1, rest[..i - 1], max, lease);
      if AllListed(w1) { ListedExact(w1, rest, max, lease); }
    }
  }

  /** The gate as an operator can judge it: a run loses no entry exactly when the key is busy, and then
      no more than max calls are ever live; it never has a live call that is not in the set exactly
      when the key never vanishes under one, which a busy key does not. */
  lemma BusyGateExact(steps: seq<Step>, max: nat, lease: nat)
    requires LawfulRun(START, steps, max, lease)
    ensures Busy(START, steps, max, lease) <==> Run(START, steps, max, lease).lost == {}
    ensures Busy(START, steps, max, lease) ==> Spared(START, steps, max, lease)
    ensures (forall i :: 0 <= i <= |steps| ==> AllListed(Run(START, steps[..i], max, lease)))
       <==> Spared(START, steps, max, lease)
    ensures Spared(START, steps, max, lease) ==> |Live(Run(START, steps, max, lease))| <= max
  {
    assert Inv(START, max, lease) && AllListed(START);
    hide Inv;
    BusyExact(START, steps, max, lease);
    if Busy(START, steps, max, lease) { BusySpares(START, steps, max, lease); }
    ListedExact(START, steps, max, lease);
    if Spared(START, steps, max, lease) {
      assert steps[..|steps|] == steps;
      var w := Run(START, steps, max, lease);
      GateHolds(steps, max, lease);
      assert Live(w) - w.slots.leases.Keys == {};
    }
  }

  lemma {:induction false} BusySpares(w: World, steps: seq<Step>, max: nat, lease: nat)
    requires Busy(w, steps, max, lease)
    ensures Spared(w, steps, max, lease)
    decreases |steps|
  {
    hide Next;
    if steps != [] { BusySpares(Next(w, steps[0], max, lease), steps[1..], max, lease); }
  }

  // ---- A finished call's slot comes back at once ----

  /** The calls that ended without freeing their slot. */
  function Crashed(steps: seq<Step>): set<int> {
    set i | 0 <= i < |steps| && steps[i].Crash? :: steps[i].m
  }

  lemma CrashedCons(steps: seq<Step>)
    requires steps != []
    ensures Crashed(steps) == Crashed(steps[1..]) + if steps[0].Crash? then {steps[0].m} else {}
  {
    forall m | m in Crashed(steps) ensures m in Crashed(steps[1..]) + if steps[0].Crash? then {steps[0].m} else {} {
      var i :| 0 <= i < |steps| && steps[i].Crash? && steps[i].m == m;
      if i > 0 { assert steps[1..][i - 1] == steps[i]; }
    }
    forall m | m in Crashed(steps[1..]) ensures m in Crashed(steps) {
      var i :| 0 <= i < |steps[1..]| && steps[1..][i].Crash? && steps[1..][i].m == m;
      assert steps[i + 1].m == m;
    }
  }

  lemma StepHeld(w: World, step: Step, gone: set<int>, max: nat, lease: nat)
    requires w.slots.leases.Keys <= w.holders.Keys + gone
    ensures var w' := Next(w, step, max, lease);
            w'.slots.leases.Keys <= w'.holders.Keys + gone + if step.Crash? then {step.m} else {}
  {
  }

  /** Only running and crashed calls are in the set. */
  lemma {:induction false} OnlyHeld(w: World, steps: seq<Step>, gone: set<int>, max: nat, lease: nat)
    requires w.slots.leases.Keys <= w.holders.Keys + gone
    ensures var w' := Run(w, steps, max, lease); w'.slots.leases.Keys <= w'.holders.Keys + gone + Crashed(steps)
    decreases |steps|
  {
    hide Next, Crashed;
    if steps != [] {
      StepHeld(w, steps[0], gone, max, lease);
      CrashedCons(steps);
      OnlyHeld(Next(w, steps[0], max, lease), steps[1..], gone + if steps[0].Crash? then {steps[0].m} else {},
               max, lease);
    }
  }

  /** So in every run a call is turned away only while max calls are running or have crashed; without a
      crash, only while max calls are running. */
  lemma RefusedOnlyIfFull(steps: seq<Step>, m: int, t: int, max: nat, lease: nat)
    requires var w := Run(START, steps, max, lease); !Acquire(w.slots, w.now, t, max, lease, m).1
    ensures |Run(START, steps, max, lease).holders.Keys + Crashed(steps)| >= max
    ensures Crashed(steps) == {} ==> |Run(START, steps, max, lease).holders| >= max
  {
    hide Run, Crashed;
    OnlyHeld(START, steps, {}, max, lease);
    var w := Run(START, steps, max, lease);
    var kept := Unexpired(w.slots.leases, t);
    SubsetSize(kept.Keys, w.holders.Keys + Crashed(steps));
    assert w.holders.Keys + {} == w.holders.Keys;
  }

  // ---- A crashed call's slot comes back ----

  /** Admission asks exactly whether fewer than max leases reach beyond t; what ended is gone. */
  lemma AdmittedIff(s: Slots, now: int, t: int, max: nat, lease: nat, m: int)
    requires m !in s.leases
    ensures var (s', ok) := Acquire(s, now, t, max, lease, m);
            && (ok <==> |set k | k in s.leases && s.leases[k] > t| < max)
            && (forall k :: k in s.leases && s.leases[k] <= t ==> k !in s'.leases)
            && (forall k :: k in s.leases && s.leases[k] > t ==> k in s'.leases && s'.leases[k] == s.leases[k])
            && (m in s'.leases <==> ok)
  {
    assert Unexpired(s.leases, t).Keys == set k | k in s.leases && s.leases[k] > t;
  }

  /** Nobody renews m in these steps. */
  predicate Silent(steps: seq<Step>, m: int) {
    forall i :: 0 <= i < |steps| ==> !(steps[i].Heartbeat? && steps[i].m == m)
  }

  /** After the last renewal of m, any acquisition called with a time one lease later finds its slot
      free, whatever happens in between. */
  lemma CrashedSlotReclaimed(w: World, steps: seq<Step>, m: int, m': int, t: int, max: nat, lease: nat)
    requires Inv(w, max, lease) && LawfulRun(w, steps + [TryAcquire(m', t)], max, lease)
    requires m in w.granted && Silent(steps, m) && w.now + lease <= t
    ensures m !in Run(w, steps + [TryAcquire(m', t)], max, lease).slots.leases
  {
    StillReclaimed(w, steps, m, m', t, w.now + lease, max, lease);
  }

  /** A lease of m that ends by `until` keeps ending by then. */
  lemma {:induction false} StillReclaimed(w: World, steps: seq<Step>, m: int, m': int, t: int, until: int,
                                          max: nat, lease: nat)
    requires LawfulRun(w, steps + [TryAcquire(m', t)], max, lease)
    requires m in w.granted && Silent(steps, m) && until <= t
    requires m in w.slots.leases ==> w.slots.leases[m] <= until
    ensures m !in Run(w, steps + [TryAcquire(m', t)], max, lease).slots.leases
    decreases |steps|
  {
    var last := [TryAcquire(m', t)];
    if steps == [] {
      assert steps + last == last && last[1..] == [];
      assert Run(w, last, max, lease) == Next(w, last[0], max, lease);
    } else {
      assert (steps + last)[1..] == steps[1..] + last;
      assert (steps + last)[0] == steps[0];
      assert Silent(steps[1..], m);
      StillReclaimed(Next(w, steps[0], max, lease), steps[1..], m, m', t, until, max, lease);
    }
  }

  // ---- A key that vanishes under a call ----

  function Pair(t: int): seq<Step> { [Tick(t), Heartbeat(1, t)] }

  /** One slot: call 1 renews in time for four leases while nobody else asks; then call 2 asks. */
  function LongCall(lease: nat): seq<Step> {
    [TryAcquire(1, 0)] + (Pair(lease - 1) + (Pair(2 * lease - 2) + (Pair(3 * lease - 3) + (Pair(4 * lease - 4)
      + [Tick(4 * lease), TryAcquire(2, 4 * lease)]))))
  }

  /** Renewals do not extend the key's life, so call 1 loses its entry and call 2 is admitted beside
      it: two live calls in one slot. */
  lemma TwoInOneSlot(lease: nat)
    requires 4 < lease
    ensures LawfulRun(START, LongCall(lease), 1, lease) && Live(Run(START, LongCall(lease), 1, lease)) == {1, 2}
  {
    hide Run, LawfulRun, Next, Pair;
    var l4 := [Tick(4 * lease), TryAcquire(2, 4 * lease)];
    var l3 := Pair(4 * lease - 4) + l4;
    var l2 := Pair(3 * lease - 3) + l3;
    var l1 := Pair(2 * lease - 2) + l2;
    FirstCall(lease, Pair(lease - 1) + l1);
    OneRenewal(lease, lease - 1, lease, l1);
    OneRenewal(2 * lease - 1, 2 * lease - 2, lease, l2);
    OneRenewal(3 * lease - 2, 3 * lease - 3, lease, l3);
    OneRenewal(4 * lease - 3, 4 * lease - 4, lease, l4);
    SecondCall(5 * lease - 4, lease);
  }

  /** Call 1 alone, its lease ending at `end`. */
  function Alone(now: int, end: int, lease: nat): World {
    World(now, Slots(map[1 := end], 4 * lease), map[1 := end], {1}, {})
  }

  lemma FirstCall(lease: nat, rest: seq<Step>)
    ensures Run(START, [TryAcquire(1, 0)] + rest, 1, lease) == Run(Alone(0, lease, lease), rest, 1, lease)
    ensures LawfulRun(START, [TryAcquire(1, 0)] + rest, 1, lease) == LawfulRun(Alone(0, lease, lease), rest, 1, lease)
  {
    assert Unexpired(map[], 0) == map[];
    assert ([TryAcquire(1, 0)] + rest)[1..] == rest;
    assert Next(START, TryAcquire(1, 0), 1, lease) == Alone(0, lease, lease);
  }

  lemma OneRenewal(end: int, t: int, lease: nat, rest: seq<Step>)
    requires t < 4 * lease
    ensures forall now :: now <= t ==>
      Run(Alone(now, end, lease), Pair(t) + rest, 1, lease) == Run(Alone(t, t + lease, lease), rest, 1, lease)
    ensures forall now :: now <= t ==>
      LawfulRun(Alone(now, end, lease), Pair(t) + rest, 1, lease)
      == LawfulRun(Alone(t, t + lease, lease), rest, 1, lease)
  {
    assert (Pair(t) + rest)[1..] == [Heartbeat(1, t)] + rest;
    assert ([Heartbeat(1, t)] + rest)[1..] == rest;
    forall now | now <= t
      ensures Next(Alone(now, end, lease), Tick(t), 1, lease) == Alone(t, end, lease)
      ensures Run(Alone(now, end, lease), Pair(t) + rest, 1, lease)
           == Run(Alone(t, end, lease), [Heartbeat(1, t)] + rest, 1, lease)
      ensures LawfulRun(Alone(now, end, lease), Pair(t) + rest, 1, lease)
           == LawfulRun(Alone(t, end, lease), [Heartbeat(1, t)] + rest, 1, lease) {
      assert Next(Alone(now, end, lease), Tick(t), 1, lease) == Alone(t, end, lease);
    }
    assert Next(Alone(t, end, lease), Heartbeat(1, t), 1, lease) == Alone(t, t + lease, lease);
  }

  lemma SecondCall(end: int, lease: nat)
    requires 4 * lease < end && 0 < lease
    ensures var steps := [Tick(4 * lease), TryAcquire(2, 4 * lease)];
            var w := Alone(4 * lease - 4, end, lease);
            LawfulRun(w, steps, 1, lease) && Live(Run(w, steps, 1, lease)) == {1, 2}
  {
    var steps := [Tick(4 * lease), TryAcquire(2, 4 * lease)];
    var w := Alone(4 * lease - 4, end, lease);
    var w1 := Next(w, steps[0], 1, lease);
    assert w1.slots.leases == map[];
    assert Unexpired(map[], 4 * lease) == map[];
    var w2 := Next(w1, steps[1], 1, lease);
    assert steps[1..] == [TryAcquire(2, 4 * lease)];
    assert steps[1..][1..] == [];
    assert Run(w, steps, 1, lease) == Run(w1, steps[1..], 1, lease) == Run(w2, [], 1, lease) == w2;
    assert w2.holders == map[1 := end, 2 := 5 * lease];
  }
}
