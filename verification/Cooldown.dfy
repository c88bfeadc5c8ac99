/** The in-process cooldown table (internal/coord/mem.go). Times and durations are nanoseconds;
    `now` is what the clock read shows. */
module Cooldown {
  import opened Words
  import opened Chunks

  datatype Entry = Entry(until: int, hits: nat, quota: bool)

  /** The entry in force: an entry past its time is as good as none, deleted or not. */
  function Live(table: map<string, Entry>, scope: string, now: int): Option<Entry> {
    if scope in table && now <= table[scope].until then Some(table[scope]) else None
  }

  /** The same entries are in force from now on. */
  ghost predicate Same(before: map<string, Entry>, after: map<string, Entry>, now: int) {
    forall s, t :: now <= t ==> Live(after, s, t) == Live(before, s, t)
  }

  /** The entry of one scope has been replaced. */
  ghost predicate Replaced(before: map<string, Entry>, after: map<string, Entry>, scope: string, e: Entry) {
    after == before[scope := e]
  }

  function Pow2(n: nat): (p: nat)
    ensures p > 0
  {
    if n == 0 then 1 else 2 * Pow2(n - 1)
  }

  function Shift(hits: nat): nat
    requires hits > 0
  {
    if hits - 1 > 30 then 30 else hits - 1
  }

  /** The duration as computed, `base << shift` wrapping around in 64 bits. */
  function BackoffStep(base: int64, max: int64, hits: nat): int64
    requires hits > 0
  {
    var d := Wrap64(base * Pow2(Shift(hits)));
    if d > max then max else d
  }

  /** The duration as meant. */
  function Doubling(base: int64, max: int64, hits: nat): int
    requires hits > 0
  {
    if base * Pow2(Shift(hits)) > max then max else base * Pow2(Shift(hits))
  }

  class Mem {
    var cooldown: map<string, Entry>

    constructor ()
      ensures cooldown == map[]
    {
      cooldown := map[];
    }

    method IsCooling(scope: string, now: int) returns (cooling: bool)
      modifies this
      ensures cooling == Live(old(cooldown), scope, now).Some?
      ensures Same(old(cooldown), cooldown, now)
    {
      if scope !in cooldown { return false; }
      if now > cooldown[scope].until {
        cooldown := cooldown - {scope};
        return false;
      }
      return true;
    }

    /** Being stopped for quota is a way of cooling down. */
    method IsQuotaCooling(scope: string, now: int) returns (cooling: bool)
      modifies this
      ensures cooling <==> Live(old(cooldown), scope, now).Some? && Live(old(cooldown), scope, now).value.quota
      ensures Same(old(cooldown), cooldown, now)
    {
      if scope !in cooldown { return false; }
      if now > cooldown[scope].until {
        cooldown := cooldown - {scope};
        return false;
      }
      return cooldown[scope].quota;
    }

    /** The later deadline stays, an earlier one is replaced together with its hits and its mark. */
    method SetCooldown(scope: string, d: int, now: int)
      modifies this
      ensures d <= 0 || (Live(old(cooldown), scope, now).Some? && now + d <= old(cooldown)[scope].until)
              ==> cooldown == old(cooldown)
      ensures d > 0 && (Live(old(cooldown), scope, now).None? || now + d > old(cooldown)[scope].until)
              ==> Replaced(old(cooldown), cooldown, scope, Entry(now + d, 0, false))
      ensures Live(old(cooldown), scope, now).Some? ==>
              Live(cooldown, scope, now).Some? && cooldown[scope].until >= old(cooldown)[scope].until
    {
      if d <= 0 { return; }
      if scope !in cooldown || now + d > cooldown[scope].until {
        cooldown := cooldown[scope := Entry(now + d, 0, false)];
      }
    }

    method Backoff(scope: string, base: int64, max: int64, now: int) returns (d: int64)
      modifies this
      ensures base <= 0 ==> d == 0 && cooldown == old(cooldown)
      ensures base > 0 ==>
              var e := Live(old(cooldown), scope, now);
              var hits := if e.Some? then e.value.hits + 1 else 1;
              d == BackoffStep(base, max, hits)
              && Replaced(old(cooldown), cooldown, scope, Entry(now + d, hits, e.Some? && e.value.quota))
    {
      if base <= 0 { return 0; }
      var e := Entry(0, 0, false);
      if scope in cooldown && !(now > cooldown[scope].until) { e := cooldown[scope]; }
      e := e.(hits := e.hits + 1);
      d := Wrap64(base * Pow2(Shift(e.hits)));
      if d > max { d := max; }
      e := e.(until := now + d);
      cooldown := cooldown[scope := e];
    }

    method MarkQuotaCooling(scope: string, ttl: int, now: int)
      modifies this
      ensures var e := Live(old(cooldown), scope, now);
              Replaced(old(cooldown), cooldown, scope,
                       if e.Some? then e.value.(quota := true) else Entry(now + ttl, 0, true))
    {
      var e := Entry(now + ttl, 0, false);
      if scope in cooldown && !(now > cooldown[scope].until) { e := cooldown[scope]; }
      cooldown := cooldown[scope := e.(quota := true)];
    }

    method ClearCooldown(scope: string)
      modifies this
      ensures forall s, t :: Live(cooldown, s, t) == if s == scope then None else Live(old(cooldown), s, t)
    {
      cooldown := cooldown - {scope};
    }
  }

  // ---- How the backoff grows ----

  lemma {:induction false} Pow2Mono(a: nat, b: nat)
    requires a <= b
    ensures Pow2(a) <= Pow2(b)
  {
    if a < b { Pow2Mono(a, b - 1); }
  }

  /** The computed duration is the one meant exactly when the product does not leave 64 bits, or
      happens to wrap to something not under the cap. */
  lemma BackoffExact(base: int64, max: int64, hits: nat)
    requires 0 < base && 0 < max && 0 < hits
    ensures BackoffStep(base, max, hits) == Doubling(base, max, hits)
            <==> base * Pow2(Shift(hits)) < TWO63 || Wrap64(base * Pow2(Shift(hits))) >= max
  {
    MulMono(0, base, 0, Pow2(Shift(hits)));
  }

  /** The duration the doubling series means, without a limit on the shift. */
  function Meant(base: int64, max: int64, k: nat): int
    requires k > 0
  {
    if base * Pow2(k - 1) > max then max else base * Pow2(k - 1)
  }

  /** The k-th duration is that of the series exactly when the product wraps to something not under
      the cap, or stays in 64 bits and the shift has not been held at 30. */
  lemma KthStepExact(base: int64, max: int64, k: nat)
    requires 0 < base && 0 < max && 0 < k
    ensures var product := base * Pow2(Shift(k));
            BackoffStep(base, max, k) == Meant(base, max, k)
            <==> Wrap64(product) >= max || (k <= 31 && product < TWO63)
  {
    BackoffExact(base, max, k);
    if k > 31 {
      Pow2Mono(31, k - 1);
      MulMono(base, base, Pow2(31), Pow2(k - 1));
      assert base * Pow2(31) == 2 * (base * Pow2(30)) by { assert Pow2(31) == 2 * Pow2(30); }
      MulMono(1, base, 1, Pow2(30));
    }
  }

  lemma DoublingMono(base: int64, max: int64, h: nat, h': nat)
    requires 0 < base && 0 < h <= h'
    ensures Doubling(base, max, h) <= Doubling(base, max, h')
  {
    Pow2Mono(Shift(h), Shift(h'));
    MulMono(base, base, Pow2(Shift(h)), Pow2(Shift(h')));
  }

  // ---- What happens to one scope ----

  /** An ordinary cooldown, or a backoff. */
  datatype Event = Ordinary(now: int, d: int) | Quota(now: int)

  function InForce(e: Option<Entry>, now: int): Option<Entry> {
    if e.Some? && now <= e.value.until then e else None
  }

  function Applied(e: Option<Entry>, ev: Event, base: int64, max: int64): Option<Entry> {
    var f := InForce(e, ev.now);
    match ev
    case Ordinary(now, d) =>
      if d <= 0 || (f.Some? && now + d <= f.value.until) then e else Some(Entry(now + d, 0, false))
    case Quota(now) =>
      var hits := if f.Some? then f.value.hits + 1 else 1;
      if base <= 0 then e else Some(Entry(now + BackoffStep(base, max, hits), hits, f.Some? && f.value.quota))
  }

  function Play(e: Option<Entry>, events: seq<Event>, base: int64, max: int64): Option<Entry> {
    if events == [] then e
    else Applied(Play(e, events[..|events| - 1], base, max), events[|events| - 1], base, max)
  }

  /** The event ends a cooldown in force earlier than it would have ended. */
  predicate Shortens(e: Option<Entry>, ev: Event, base: int64, max: int64) {
    InForce(e, ev.now).Some? && Applied(e, ev, base, max).value.until < e.value.until
  }

  predicate Shortened(e: Option<Entry>, events: seq<Event>, base: int64, max: int64) {
    events != []
    && (Shortened(e, events[..|events| - 1], base, max)
        || Shortens(Play(e, events[..|events| - 1], base, max), events[|events| - 1], base, max))
  }

  /** Times do not go back, and no ordinary cooldown is longer than `limit`. */
  predicate Usual(events: seq<Event>, limit: int) {
    && (forall i, j :: 0 <= i < j < |events| ==> events[i].now <= events[j].now)
    && (forall i :: 0 <= i < |events| && events[i].Ordinary? ==> events[i].d <= limit)
  }

  /** The entry stored for a scope, in force or not. */
  function At(table: map<string, Entry>, scope: string): Option<Entry> {
    if scope in table then Some(table[scope]) else None
  }

  ghost predicate SameElsewhere(before: map<string, Entry>, after: map<string, Entry>, scope: string) {
    forall s :: s != scope ==> At(after, s) == At(before, s)
  }

  method PlayOne(m: Mem, scope: string, ev: Event, base: int64, max: int64)
    modifies m
    ensures At(m.cooldown, scope) == Applied(At(old(m.cooldown), scope), ev, base, max)
    ensures SameElsewhere(old(m.cooldown), m.cooldown, scope)
  {
    hide BackoffStep;
    match ev {
      case Ordinary(now, d) => m.SetCooldown(scope, d, now);
      case Quota(now) => var d := m.Backoff(scope, base, max, now);
    }
  }

  /** The table does to the scope what the events say; the answer tells whether it was shortened. */
  method PlayOn(m: Mem, scope: string, events: seq<Event>, base: int64, max: int64) returns (shortened: bool)
    modifies m
    ensures At(m.cooldown, scope) == Play(At(old(m.cooldown), scope), events, base, max)
    ensures shortened <==> Shortened(At(old(m.cooldown), scope), events, base, max)
    ensures SameElsewhere(old(m.cooldown), m.cooldown, scope)
  {
    hide Applied, At;
    ghost var e := At(m.cooldown, scope);
    shortened := false;
    for i := 0 to |events|
      invariant At(m.cooldown, scope) == Play(e, events[..i], base, max)
      invariant shortened <==> Shortened(e, events[..i], base, max)
      invariant SameElsewhere(old(m.cooldown), m.cooldown, scope)
    {
      assert events[..i + 1][..i] == events[..i];
      var before := At(m.cooldown, scope);
      PlayOne(m, scope, events[i], base, max);
      if Shortens(before, events[i], base, max) { shortened := true; }
    }
    assert events[..|events|] == events;
  }

  /** Each event is a backoff that comes while the one before is still in force. */
  predicate InARow(e: Option<Entry>, events: seq<Event>, base: int64, max: int64) {
    events == []
    || (var before := Play(e, events[..|events| - 1], base, max);
        && InARow(e, events[..|events| - 1], base, max)
        && events[|events| - 1].Quota?
        && (before.Some? ==> events[|events| - 1].now <= before.value.until))
  }

  /** The k-th backoff in a row has k hits and lasts as long as the k-th step: the doubling series
      exactly where KthStepExact says so. */
  lemma {:induction false} KthBackoff(e: Option<Entry>, events: seq<Event>, base: int64, max: int64)
    requires 0 < base && 0 < max && events != [] && InARow(e, events, base, max)
    ensures var k := (if e.Some? then e.value.hits else 0) + |events|;
            && Play(e, events, base, max)
               == Some(Entry(events[|events| - 1].now + BackoffStep(base, max, k), k, e.Some? && e.value.quota))
            && (BackoffStep(base, max, k) == Meant(base, max, k)
                <==> Wrap64(base * Pow2(Shift(k))) >= max || (k <= 31 && base * Pow2(Shift(k)) < TWO63))
  {
    hide BackoffStep;
    KthStepExact(base, max, (if e.Some? then e.value.hits else 0) + |events|);
    if |events| > 1 {
      KthBackoff(e, events[..|events| - 1], base, max);
    } else {
      assert events[..0] == [];
    }
  }

  /** With a base of a minute the 29th hit in a row wraps to a negative duration: no cooldown. */
  lemma TwentyNinthHit(now: int)
    ensures var minute := 60_000_000_000;
            var day := 86_400_000_000_000;
            BackoffStep(minute, day, 28) == day && BackoffStep(minute, day, 29) < 0
            && Live(map["k" := Entry(now + BackoffStep(minute, day, 29), 29, false)], "k", now).None?
  {
    assert Pow2(27) == 134217728 by { assert Pow2(10) == 1024; assert Pow2(20) == 1048576; }
    assert Pow2(28) == 268435456;
  }

  // ---- When a backoff shortens a cooldown ----

  lemma FirstStep(base: int64, max: int64)
    requires 0 < base && 0 < max
    ensures BackoffStep(base, max, 1) == Min(base, max)
  {
    assert Pow2(0) == 1;
  }

  predicate DuringForce(e: Entry, setAt: int, now: int) { setAt <= now <= e.until }

  /** A backoff at this time leaves the cooldown in force at least as long as it was. */
  predicate Spares(e: Entry, now: int, base: int64, max: int64) {
    now + BackoffStep(base, max, e.hits + 1) >= e.until
  }

  /** An entry set at some time is spared by a backoff at every moment it is in force exactly when
      the next step reaches as far from the time it was set. */
  lemma EntrySparedIff(e: Entry, setAt: int, base: int64, max: int64)
    requires setAt <= e.until
    ensures (forall now :: DuringForce(e, setAt, now) ==> Spares(e, now, base, max))
            <==> e.until <= setAt + BackoffStep(base, max, e.hits + 1)
  {
    assert DuringForce(e, setAt, setAt);
    assert Spares(e, setAt, base, max) <==> setAt + BackoffStep(base, max, e.hits + 1) >= e.until;
  }

  /** So an ordinary cooldown is spared exactly when it is no longer than the first step. */
  lemma OrdinarySparedIff(d: int, setAt: int, base: int64, max: int64)
    requires 0 < base && 0 < max && 0 < d
    ensures var e := Entry(setAt + d, 0, false);
            (forall now :: DuringForce(e, setAt, now) ==> Spares(e, now, base, max)) <==> d <= Min(base, max)
  {
    EntrySparedIff(Entry(setAt + d, 0, false), setAt, base, max);
    FirstStep(base, max);
  }

  /** No entry reaches further than its kind allows: an ordinary one the first step, another the step
      of its hits. */
  predicate Modest(e: Option<Entry>, base: int64, max: int64, clock: int) {
    e.Some? ==>
      e.value.until <= clock + if e.value.hits == 0 then Min(base, max) else Doubling(base, max, e.value.hits)
  }

  /** The shift never leaves 64 bits. */
  predicate Narrow(base: int64) { base * Pow2(30) < TWO63 }

  lemma NarrowStep(base: int64, max: int64, hits: nat)
    requires 0 < base && 0 < max && 0 < hits && Narrow(base)
    ensures BackoffStep(base, max, hits) == Doubling(base, max, hits)
  {
    BackoffExact(base, max, hits);
    Pow2Mono(Shift(hits), 30);
    MulMono(base, base, Pow2(Shift(hits)), Pow2(30));
  }

  lemma ModestStep(e: Option<Entry>, ev: Event, base: int64, max: int64, clock: int, limit: int)
    requires 0 < base && 0 < max && Narrow(base) && limit <= Min(base, max)
    requires Modest(e, base, max, clock) && clock <= ev.now && (ev.Ordinary? ==> ev.d <= limit)
    ensures !Shortens(e, ev, base, max) && Modest(Applied(e, ev, base, max), base, max, ev.now)
  {
    hide BackoffStep, Doubling, Narrow;
    var f := InForce(e, ev.now);
    var hits := if f.Some? then f.value.hits + 1 else 1;
    NarrowStep(base, max, hits);
    FirstStep(base, max);
    NarrowStep(base, max, 1);
    if hits > 1 { DoublingMono(base, max, hits - 1, hits); }
  }

  lemma {:induction false} ModestRun(events: seq<Event>, base: int64, max: int64, limit: int)
    requires 0 < base && 0 < max && Narrow(base) && limit <= Min(base, max) && Usual(events, limit)
    ensures !Shortened(None, events, base, max)
    ensures events != [] ==> Modest(Play(None, events, base, max), base, max, events[|events| - 1].now)
  {
    hide BackoffStep, Doubling, Narrow, Applied, Shortens, Modest;
    if events != [] {
      var rest, last := events[..|events| - 1], events[|events| - 1];
      ModestRun(rest, base, max, limit);
      var clock := if rest == [] then last.now else rest[|rest| - 1].now;
      assert Modest(None, base, max, clock) by { NothingModest(base, max, clock); }
      ModestStep(Play(None, rest, base, max), last, base, max, clock, limit);
    }
  }

  lemma NothingModest(base: int64, max: int64, clock: int)
    ensures Modest(None, base, max, clock)
  {
  }

  /** Backoffs at one moment. */
  function Quotas(n: nat): (q: seq<Event>)
    ensures |q| == n && forall i :: 0 <= i < n ==> q[i] == Quota(0)
  {
    seq(n, _ => Quota(0))
  }

  lemma {:induction false} QuotasInARow(n: nat, base: int64, max: int64)
    requires 0 < base && 0 < max
    requires forall k :: 0 < k < n ==> BackoffStep(base, max, k) >= 0
    ensures InARow(None, Quotas(n), base, max)
    ensures n > 0 ==> Play(None, Quotas(n), base, max) == Some(Entry(BackoffStep(base, max, n), n, false))
  {
    hide BackoffStep;
    if n > 0 {
      assert Quotas(n)[..n - 1] == Quotas(n - 1);
      QuotasInARow(n - 1, base, max);
    }
  }

  /** The first product beyond 64 bits is less than twice beyond, so it wraps to a negative number. */
  lemma {:induction false} FirstWrap(base: int64, s: nat) returns (w: nat)
    requires 0 < base && s <= 30 && base * Pow2(s) >= TWO63
    ensures 0 < w <= s && TWO63 <= base * Pow2(w) < TWO64
    ensures forall k :: 0 <= k < w ==> base * Pow2(k) < TWO63
  {
    assert Pow2(0) == 1;
    if base * Pow2(s - 1) >= TWO63 {
      w := FirstWrap(base, s - 1);
    } else {
      w := s;
      assert base * Pow2(s) == 2 * (base * Pow2(s - 1)) by { assert Pow2(s) == 2 * Pow2(s - 1); }
      forall k | 0 <= k < w ensures base * Pow2(k) < TWO63 {
        Pow2Mono(k, s - 1);
        MulMono(base, base, Pow2(k), Pow2(s - 1));
      }
    }
  }

  lemma StepInRange(base: int64, max: int64, k: nat)
    requires 0 < base && 0 < max && 0 < k <= 31
    ensures base * Pow2(k - 1) < TWO63 ==> BackoffStep(base, max, k) > 0
    ensures TWO63 <= base * Pow2(k - 1) < TWO64 ==> BackoffStep(base, max, k) < 0
  {
    MulMono(1, base, 1, Pow2(k - 1));
  }

  lemma WideShortens(base: int64, max: int64) returns (n: nat)
    requires 0 < base && 0 < max && !Narrow(base)
    ensures Shortened(None, Quotas(n), base, max)
  {
    hide BackoffStep;
    var w := FirstWrap(base, 30);
    n := w + 1;
    forall k | 0 < k < n ensures BackoffStep(base, max, k) > 0 {
      assert base * Pow2(k - 1) < TWO63;
      StepInRange(base, max, k);
    }
    StepInRange(base, max, n);
    assert Quotas(n)[..w] == Quotas(w);
    QuotasInARow(w, base, max);
  }

  /** Over every sequence of ordinary cooldowns of at most `limit` and of backoffs, a backoff never
      ends a cooldown early exactly when the limit is no more than the base and the cap, and the
      base is less than 2^33, so that no shift wraps. */
  lemma NeverShortensIff(base: int64, max: int64, limit: int)
    requires 0 < base && 0 < max
    ensures (forall events :: Usual(events, limit) ==> !Shortened(None, events, base, max))
            <==> limit <= Min(base, max) && Narrow(base)
    ensures Narrow(base) <==> base < 0x2_0000_0000
  {
    hide Narrow, Shortened;
    NarrowIff(base);
    if limit > Min(base, max) {
      LongShortens(base, max, limit);
      assert Usual([Ordinary(0, limit), Quota(0)], limit);
    } else if !Narrow(base) {
      var n := WideShortens(base, max);
      assert Usual(Quotas(n), limit);
    } else {
      forall events | Usual(events, limit) ensures !Shortened(None, events, base, max) {
        ModestRun(events, base, max, limit);
      }
    }
  }

  lemma NarrowIff(base: int64)
    ensures Narrow(base) <==> base < 0x2_0000_0000
  {
    assert Pow2(10) == 1024;
    assert Pow2(20) == 1048576;
    assert Pow2(30) == 1073741824;
  }

  lemma LongShortens(base: int64, max: int64, limit: int)
    requires 0 < base && 0 < max && limit > Min(base, max)
    ensures Shortened(None, [Ordinary(0, limit), Quota(0)], base, max)
  {
    hide BackoffStep;
    var events := [Ordinary(0, limit), Quota(0)];
    FirstStep(base, max);
    assert events[..1] == [Ordinary(0, limit)] && events[..1][..0] == [];
    assert Play(None, events[..1], base, max) == Some(Entry(limit, 0, false));
  }

  /** An upstream may ask for up to ten minutes; with a base of one minute, a first backoff cuts such
      a cooldown short. */
  lemma RetryAfterCutShort(now: int)
    ensures var minute := 60_000_000_000;
            var e := Entry(now + 10 * minute, 0, false);
            !Spares(e, now, minute, 1440 * minute)
            && now + BackoffStep(minute, 1440 * minute, e.hits + 1) == now + minute < e.until
  {
    assert Pow2(0) == 1;
  }
}
