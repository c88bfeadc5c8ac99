/** Throttling and the level together: a settlement is followed by a check, and the check leaves the
    row at the true level (internal/service/alerts.go). */
module AlertTiming {
  import opened Words
  import A = Alerts
  import T = Throttle

  /** One subject: its throttle in this process, its row in the database. */
  datatype Joint = Joint(throttle: T.State, world: A.World)

  /** A call or a timer of this process, with the identity of the check it may let through and what
      checks elsewhere do meanwhile. */
  datatype Event = Event(what: T.Event, id: int, between: seq<A.Step>)

  function CheckRuns(w: A.World, id: int, between: seq<A.Step>, c: A.Setting): A.World {
    A.Next(A.Run(A.Next(w, A.Read(id), c), between, c), A.CommitLevel(id), c)
  }

  function Next(j: Joint, e: Event, c: A.Setting): Joint {
    var throttle := T.Next(j.throttle, e.what);
    Joint(throttle, if |throttle.checks| > |j.throttle.checks| then CheckRuns(j.world, e.id, e.between, c)
                    else A.Run(j.world, e.between, c))
  }

  function Run(j: Joint, events: seq<Event>, c: A.Setting): Joint
    decreases |events|
  {
    if events == [] then j else Run(Next(j, events[0], c), events[1..], c)
  }

  function Whats(events: seq<Event>): seq<T.Event> {
    seq(|events|, i requires 0 <= i < |events| => events[i].what)
  }

  /** Nothing more is settled, and every check is a new one. */
  predicate Silent(j: Joint, events: seq<Event>, c: A.Setting)
    decreases |events|
  {
    events == []
    || (events[0].id !in j.world.readings && A.Quiet(events[0].between, events[0].id)
        && Silent(Next(j, events[0], c), events[1..], c))
  }

  predicate TrueLevel(w: A.World, c: A.Setting) { w.level == A.Level(w.used, c.limit, c.levels) }

  lemma {:induction false} QuietKeepsUsed(w: A.World, steps: seq<A.Step>, id: int, c: A.Setting)
    requires A.Quiet(steps, id)
    ensures A.Run(w, steps, c).used == w.used
    decreases |steps|
  {
    if steps != [] {
      assert A.Quiet(steps[1..], id) by { assert forall i :: 0 <= i < |steps| - 1 ==> steps[1..][i] == steps[i + 1]; }
      QuietKeepsUsed(A.Next(w, steps[0], c), steps[1..], id, c);
    }
  }

  /** A check that is let through sets the level right, and without settlements it stays right. */
  lemma StepLevel(j: Joint, e: Event, c: A.Setting)
    requires A.Inv(j.world, c) && e.id !in j.world.readings && A.Quiet(e.between, e.id)
    ensures var j' := Next(j, e, c);
            && A.Inv(j'.world, c) && j'.world.used == j.world.used
            && (TrueLevel(j.world, c) || |j'.throttle.checks| > |j.throttle.checks| ==> TrueLevel(j'.world, c))
  {
    hide A.Level, A.Next, A.Quiet;
    var w, j' := j.world, Next(j, e, c);
    A.LevelsSentOnce(w, e.between, c);
    QuietKeepsUsed(w, e.between, e.id, c);
    if |j'.throttle.checks| > |j.throttle.checks| {
      A.LastCheckSettles(w, e.between, e.id, c);
      A.StepInv(w, A.Read(e.id), c);
      A.LevelsSentOnce(A.Next(w, A.Read(e.id), c), e.between, c);
      A.StepInv(A.Run(A.Next(w, A.Read(e.id), c), e.between, c), A.CommitLevel(e.id), c);
    }
  }

  lemma {:induction false} RunLevel(j: Joint, events: seq<Event>, c: A.Setting, n: nat)
    requires A.Inv(j.world, c) && Silent(j, events, c)
    requires |j.throttle.checks| > n ==> TrueLevel(j.world, c)
    ensures var j' := Run(j, events, c);
            && j'.world.used == j.world.used && j'.throttle == T.Run(j.throttle, Whats(events))
            && (|j'.throttle.checks| > n ==> TrueLevel(j'.world, c))
    decreases |events|
  {
    hide A.Inv, A.Quiet, TrueLevel, CheckRuns;
    if events != [] {
      var j1 := Next(j, events[0], c);
      StepLevel(j, events[0], c);
      ChecksGrow(j.throttle, events[0].what);
      RunLevel(j1, events[1..], c, n);
      assert Whats(events)[1..] == Whats(events[1..]);
    }
  }

  lemma ChecksGrow(s: T.State, e: T.Event)
    ensures |s.checks| <= |T.Next(s, e).checks|
  {
  }

  /** A settlement at time t that calls for a check, and no further settlement: once the clock is past
      the minute the row is at the true level, whatever other calls, timers and instances do. */
  lemma SettledWithinAMinute(j: Joint, clock: int, cost: int64, t: int, first: Event, events: seq<Event>, c: A.Setting)
    requires A.Inv(j.world, c) && T.Inv(j.throttle, clock)
    requires first.what == T.Asked(t)
    requires var settled := j.(world := A.Next(j.world, A.Charge(cost), c));
             && Silent(settled, [first] + events, c)
             && T.Punctual(j.throttle, clock, [T.Asked(t)] + Whats(events))
    requires t + T.WINDOW < T.Clock(T.CheckAlert(j.throttle, t), t, Whats(events))
    ensures var settled := j.(world := A.Next(j.world, A.Charge(cost), c));
            var j' := Run(settled, [first] + events, c);
            j'.world.used == settled.world.used && TrueLevel(j'.world, c)
  {
    hide A.Inv, T.Inv, T.Punctual, T.Clock, T.CheckAlert, TrueLevel, Silent, A.Next;
    var settled := j.(world := A.Next(j.world, A.Charge(cost), c));
    A.StepInv(j.world, A.Charge(cost), c);
    T.EveryCallIsChecked(j.throttle, clock, t, Whats(events));
    RunLevel(settled, [first] + events, c, |j.throttle.checks|);
    assert Whats([first] + events)[1..] == Whats(events);
    assert Whats([first] + events)[0] == T.Asked(t);
  }
}
