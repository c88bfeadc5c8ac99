/** Checks of one subject are let through at most once a minute, and a check held back is made up
    for when the minute is over (internal/service/alerts.go). Times are seconds. */
module Throttle {
  import opened Chunks

  const WINDOW := 60

  /** One subject: when a check last went through, when the pending recheck is due, and the times
      of all checks that went through. */
  datatype State = State(last: Option<int>, pending: Option<int>, checks: seq<int>)

  function CheckAlert(s: State, now: int): State {
    if s.last.Some? && now - s.last.value < WINDOW then
      s.(pending := if s.pending.Some? then s.pending else Some(s.last.value + WINDOW))
    else
      s.(last := Some(now), checks := s.checks + [now])
  }

  class Throttler {
    var lastCheck: map<string, int>
    var recheckPending: map<string, int>
    /** The checks that went through, per subject. */
    ghost var checks: map<string, seq<int>>

    constructor ()
      ensures forall key :: Subject(key) == State(None, None, [])
    {
      lastCheck, recheckPending, checks := map[], map[], map[];
    }

    ghost function Subject(key: string): State
      reads this
    {
      State(if key in lastCheck then Some(lastCheck[key]) else None,
            if key in recheckPending then Some(recheckPending[key]) else None,
            if key in checks then checks[key] else [])
    }

    method ThrottleWindow(key: string, now: int) returns (pass: bool, dueAt: int)
      modifies this`lastCheck
      ensures pass == !(key in old(lastCheck) && now - old(lastCheck)[key] < WINDOW)
      ensures pass ==> lastCheck == old(lastCheck)[key := now]
      ensures !pass ==> lastCheck == old(lastCheck) && dueAt == lastCheck[key] + WINDOW
    {
      if key in lastCheck && now - lastCheck[key] < WINDOW { return false, lastCheck[key] + WINDOW; }
      lastCheck := lastCheck[key := now];
      return true, 0;
    }

    method Check(key: string, now: int)
      modifies this
      ensures Subject(key) == CheckAlert(old(Subject(key)), now)
      ensures forall k :: k != key ==> Subject(k) == old(Subject(k))
    {
      var pass, dueAt := ThrottleWindow(key, now);
      if !pass {
        if key !in recheckPending { recheckPending := recheckPending[key := dueAt]; }
        return;
      }
      checks := checks[key := (if key in checks then checks[key] else []) + [now]];
    }

    /** The timer of a pending recheck. */
    method Recheck(key: string, now: int)
      modifies this
      ensures Subject(key) == CheckAlert(old(Subject(key)).(pending := None), now)
      ensures forall k :: k != key ==> Subject(k) == old(Subject(k))
    {
      recheckPending := recheckPending - {key};
      Check(key, now);
    }
  }

  // ---- Runs ----

  datatype Event = Asked(now: int) | Fire

  function Next(s: State, e: Event): State {
    match e
    case Asked(now) => CheckAlert(s, now)
    case Fire => if s.pending.None? then s else CheckAlert(s.(pending := None), s.pending.value)
  }

  function Run(s: State, events: seq<Event>): State
    decreases |events|
  {
    if events == [] then s else Run(Next(s, events[0]), events[1..])
  }

  /** Time goes forward, and a timer fires when it is due: nothing happens later than that before
      it. `clock` is the present time. */
  predicate Punctual(s: State, clock: int, events: seq<Event>)
    decreases |events|
  {
    events == []
    || match events[0]
       case Asked(now) =>
         && clock <= now && (s.pending.Some? ==> now <= s.pending.value)
         && Punctual(Next(s, events[0]), now, events[1..])
       case Fire =>
         && s.pending.Some? && clock <= s.pending.value
         && Punctual(Next(s, events[0]), s.pending.value, events[1..])
  }

  /** The last check is not in the future, and a pending recheck is due either when the minute of
      the last check is over or, if a check came at that very moment, right then. */
  predicate Inv(s: State, clock: int) {
    && (s.last.Some? ==> s.last.value <= clock)
    && (s.pending.Some? ==>
          s.last.Some? && clock <= s.pending.value
          && (s.pending.value == s.last.value + WINDOW || (s.pending.value == s.last.value && clock == s.last.value)))
  }

  function Clock(s: State, clock: int, events: seq<Event>): int
    decreases |events|
  {
    if events == [] then clock
    else
      match events[0]
      case Asked(now) => Clock(Next(s, events[0]), now, events[1..])
      case Fire => Clock(Next(s, events[0]), if s.pending.Some? then s.pending.value else clock, events[1..])
  }

  /** A check has gone through in time since there were n of them, or a timer will see to it. */
  predicate Owed(s: State, n: nat, limit: int) {
    if |s.checks| > n then s.checks[n] <= limit
    else s.pending.Some? && s.last.Some? && s.pending.value <= limit && s.last.value + WINDOW <= limit
  }

  lemma StepOwed(s: State, clock: int, e: Event, rest: seq<Event>, n: nat, limit: int)
    requires Inv(s, clock) && Punctual(s, clock, [e] + rest) && Owed(s, n, limit) && n <= |s.checks|
    ensures Owed(Next(s, e), n, limit) && n <= |Next(s, e).checks|
  {
    assert ([e] + rest)[1..] == rest;
  }

  lemma StepInv(s: State, clock: int, e: Event, rest: seq<Event>)
    requires Inv(s, clock) && Punctual(s, clock, [e] + rest)
    ensures Inv(Next(s, e), if e.Asked? then e.now else s.pending.value)
  {
    assert ([e] + rest)[1..] == rest;
  }

  lemma {:induction false} StaysOwed(s: State, clock: int, events: seq<Event>, n: nat, limit: int)
    requires Inv(s, clock) && Punctual(s, clock, events) && Owed(s, n, limit) && n <= |s.checks|
    ensures Owed(Run(s, events), n, limit) && Inv(Run(s, events), Clock(s, clock, events))
    decreases |events|
  {
    if events != [] {
      var e, rest := events[0], events[1..];
      assert events == [e] + rest;
      StepOwed(s, clock, e, rest, n, limit);
      StepInv(s, clock, e, rest);
      StaysOwed(Next(s, e), if e.Asked? then e.now else s.pending.value, rest, n, limit);
    }
  }

  /** Throttling loses nothing: whatever happens after a call at time t, once the clock is past the
      minute the call has been followed by a check, made in [t, t + 60]. */
  lemma EveryCallIsChecked(s: State, clock: int, t: int, events: seq<Event>)
    requires Inv(s, clock) && Punctual(s, clock, [Asked(t)] + events)
    requires t + WINDOW < Clock(CheckAlert(s, t), t, events)
    ensures var checks := Run(CheckAlert(s, t), events).checks;
            |checks| > |s.checks| && t <= checks[|s.checks|] <= t + WINDOW
  {
    hide Owed, Inv;
    assert ([Asked(t)] + events)[1..] == events;
    var s1 := CheckAlert(s, t);
    StepInv(s, clock, Asked(t), events);
    CallOwed(s, clock, t);
    StaysOwed(s1, t, events, |s.checks|, t + WINDOW);
    PastDue(Run(s1, events), Clock(s1, t, events), |s.checks|, t + WINDOW);
    ChecksFromNow(s1, t, events, |s.checks|, t);
  }

  lemma CallOwed(s: State, clock: int, t: int)
    requires Inv(s, clock) && clock <= t && (s.pending.Some? ==> t <= s.pending.value)
    ensures Owed(CheckAlert(s, t), |s.checks|, t + WINDOW) && |s.checks| <= |CheckAlert(s, t).checks|
    ensures forall i :: |s.checks| <= i < |CheckAlert(s, t).checks| ==> CheckAlert(s, t).checks[i] >= t
  {
  }

  lemma PastDue(s: State, clock: int, n: nat, limit: int)
    requires Owed(s, n, limit) && Inv(s, clock) && limit < clock
    ensures |s.checks| > n && s.checks[n] <= limit
  {
  }

  lemma {:induction false} ChecksFromNow(s: State, clock: int, events: seq<Event>, n: nat, t: int)
    requires Punctual(s, clock, events) && t <= clock && n <= |s.checks|
    requires forall i :: n <= i < |s.checks| ==> s.checks[i] >= t
    ensures |Run(s, events).checks| >= |s.checks|
    ensures forall i :: n <= i < |Run(s, events).checks| ==> Run(s, events).checks[i] >= t
    decreases |events|
  {
    if events != [] {
      ChecksFromNow(Next(s, events[0]), if events[0].Asked? then events[0].now else s.pending.value, events[1..], n, t);
    }
  }

  /** Checks that went through are a minute apart, and the last of them is remembered. */
  predicate Spaced(s: State) {
    && (forall i :: 0 < i < |s.checks| ==> s.checks[i - 1] + 60 <= s.checks[i])
    && (s.checks != [] ==> s.last == Some(s.checks[|s.checks| - 1]))
  }

  /** Whatever calls and timers come, and when, at most one check a minute goes through. */
  lemma {:induction false} AtMostOneAMinute(s: State, events: seq<Event>)
    requires Spaced(s)
    ensures Spaced(Run(s, events))
    decreases |events|
  {
    if events != [] { AtMostOneAMinute(Next(s, events[0]), events[1..]); }
  }

  /** Calls set no second timer while one is pending, and move none. */
  lemma {:induction false} TimerStays(s: State, events: seq<Event>)
    requires s.pending.Some? && forall i :: 0 <= i < |events| ==> events[i].Asked?
    ensures Run(s, events).pending == s.pending
    decreases |events|
  {
    if events != [] { TimerStays(Next(s, events[0]), events[1..]); }
  }

  /** How often the timers can still fire when nobody calls. */
  function Rounds(s: State): nat {
    if s.pending.None? || s.last.None? then 0 else if s.pending.value == s.last.value + WINDOW then 1 else 2
  }

  /** When the calls stop, so does the chain of rechecks: after at most two. */
  lemma {:induction false} ChainStops(s: State, clock: int, events: seq<Event>)
    requires Inv(s, clock) && Punctual(s, clock, events)
    requires forall i :: 0 <= i < |events| ==> events[i] == Fire
    ensures |events| <= Rounds(s) <= 2
    decreases |events|
  {
    if events != [] {
      var rest := events[1..];
      assert events == [Fire] + rest;
      StepInv(s, clock, Fire, rest);
      ChainStops(Next(s, Fire), s.pending.value, rest);
    }
  }
}
