/** The retry loop over the candidates of one request and how its failures are classified
    (internal/gateway/handler.go). */
module Relay {
  import opened Words
  import opened Chunks
  import opened Cooldown

  datatype Candidate = Candidate(channel: int, vendor: nat, key: nat, priority: int)
  {
    /** Keys cool down per vendor, shared by all its channels. */
    function KeyScope(): string {
      "ck:" + Decimal(vendor) + ":" + Decimal(key)
    }
  }

  /** How one attempt ends: `Rate429` carries the cooldown taken from the response. */
  datatype Outcome =
    | QueueTimeout | RequestFault | Disconnected
    | NetTimeout | NetFault
    | Quota429 | Rate429(cooldown: int) | AuthRefused | ServerFault
    | BodyCut | Untranslatable | Answered

  datatype Flow = Finish | NextKey | NextChannel

  function After(o: Outcome): Flow {
    match o
    case Answered | Disconnected => Finish
    case Quota429 | Rate429(_) | AuthRefused | RequestFault => NextKey
    case _ => NextChannel
  }

  type Table = map<string, Entry>

  /** What the loop meets when it comes to a candidate: the time, whether the client has gone, what
      other requests, probes and administrators have made of the shared cooldown table by then, how an
      attempt would end and when, and what the others do to the table until then. */
  datatype Look = Look(now: int, gone: bool, others: Table -> Table,
                       outcome: Outcome, finished: int, meanwhile: Table -> Table)

  datatype Config = Config(maxCandidates: int, keyCooldown: int64, wholeVendor: bool)

  const QUOTA_COOLDOWN_MAX: int64 := 86_400_000_000_000

  datatype Verdict =
    | Responded | ClientGone
    | PaymentRequired | GatewayTimeout | TooManyRequests(retryAfter: int) | KeysInvalid | BadGateway

  /** `applied` is the cooldown it set. */
  datatype Try = Try(index: nat, outcome: Outcome, applied: int)

  /** A candidate passed over as cooling. */
  datatype Pass = Pass(index: nat, forQuota: bool)

  function QuotaPasses(passes: seq<Pass>): nat {
    if passes == [] then 0
    else QuotaPasses(passes[..|passes| - 1]) + if passes[|passes| - 1].forQuota then 1 else 0
  }

  // ---- The verdict from the history ----

  predicate Limits(o: Outcome) { o.Rate429? || o.Quota429? }

  predicate AllQuota(tries: seq<Try>) { forall t :: t in tries ==> t.outcome == Quota429 }

  predicate AllTimeouts(tries: seq<Try>) { forall t :: t in tries ==> t.outcome == NetTimeout }

  predicate AllLimited(tries: seq<Try>) { forall t :: t in tries ==> Limits(t.outcome) }

  predicate AllRefused(tries: seq<Try>) { forall t :: t in tries ==> t.outcome == AuthRefused }

  function Classify(tries: seq<Try>, skipped: nat, skippedQuota: nat, retryAfter: int): Verdict {
    if AllQuota(tries) && skipped == skippedQuota && (|tries| > 0 || skipped > 0) then PaymentRequired
    else if AllTimeouts(tries) then GatewayTimeout
    else if AllLimited(tries) then TooManyRequests(retryAfter)
    else if AllRefused(tries) then KeysInvalid
    else BadGateway
  }

  /** After at least one attempt each verdict means what it says. */
  lemma VerdictMeansHistory(tries: seq<Try>, skipped: nat, skippedQuota: nat, retryAfter: int)
    requires tries != []
    ensures var v := Classify(tries, skipped, skippedQuota, retryAfter);
            var onlyQuota := skipped == skippedQuota && forall t :: t in tries ==> t.outcome.Quota429?;
            && (v == PaymentRequired <==> onlyQuota)
            && (v == GatewayTimeout <==> forall t :: t in tries ==> t.outcome.NetTimeout?)
            && (v == TooManyRequests(retryAfter)
                <==> !onlyQuota && forall t :: t in tries ==> t.outcome.Rate429? || t.outcome.Quota429?)
            && (v == KeysInvalid <==> forall t :: t in tries ==> t.outcome.AuthRefused?)
            && !v.Responded? && !v.ClientGone?
  {
    assert tries[0] in tries;
  }

  /** A timeout is reported although none happened exactly when every candidate was skipped as
      cooling and not all of them for quota: those callers should have been told 429. */
  lemma FalseTimeoutIff(tries: seq<Try>, skipped: nat, skippedQuota: nat, retryAfter: int)
    requires |tries| > 0 || skipped > 0
    ensures Classify(tries, skipped, skippedQuota, retryAfter) == GatewayTimeout
            && !(exists t :: t in tries && t.outcome == NetTimeout)
            <==> tries == [] && skipped != skippedQuota
  {
    if tries != [] { assert tries[0] in tries; }
  }

  // ---- Cooling ----

  /** Whatever was cooling at some time from now on still is then. */
  ghost predicate KeepsCooling(before: Table, after: Table, now: int) {
    forall s, t :: now <= t && Live(before, s, t).Some? ==> Live(after, s, t).Some?
  }

  /** The keys cooled together: one key, or all of its vendor. */
  predicate SamePool(c: Candidate, cur: Candidate, wholeVendor: bool) {
    c.vendor == cur.vendor && (wholeVendor || c.key == cur.key)
  }

  ghost predicate Pooled(scope: string, cur: Candidate, cands: seq<Candidate>, wholeVendor: bool) {
    exists c :: c in cands && SamePool(c, cur, wholeVendor) && c.KeyScope() == scope
  }

  /** Two keys share a cooldown exactly when they are the same key of the same vendor. */
  lemma ScopesDistinct(c: Candidate, d: Candidate)
    ensures c.KeyScope() == d.KeyScope() <==> c.vendor == d.vendor && c.key == d.key
  {
    hide Decimal;
    if c.KeyScope() == d.KeyScope() {
      var x, y := Decimal(c.vendor) + ":" + Decimal(c.key), Decimal(d.vendor) + ":" + Decimal(d.key);
      assert c.KeyScope() == "ck:" + x && d.KeyScope() == "ck:" + y;
      assert x == ("ck:" + x)[3..] == ("ck:" + y)[3..] == y;
      DecimalExact(c.vendor);
      DecimalExact(d.vendor);
      SplitAtColon(Decimal(c.vendor), Decimal(c.key), Decimal(d.vendor), Decimal(d.key));
      DecimalInjective(c.vendor, d.vendor);
      DecimalInjective(c.key, d.key);
    }
  }

  lemma SplitAtColon(a: string, b: string, a': string, b': string)
    requires Digits(a) && Digits(a') && a + ":" + b == a' + ":" + b'
    ensures a == a' && b == b'
  {
    var x, y := a + ":" + b, a' + ":" + b';
    assert x[|a|] == ':' && y[|a'|] == ':';
    forall k | 0 <= k < |a| ensures x[k] != ':' { assert a[k] in a; }
    forall k | 0 <= k < |a'| ensures y[k] != ':' { assert a'[k] in a'; }
    assert |a| == |a'|;
    assert a == x[..|a|] && a' == y[..|a'|] && b == x[|a| + 1..] && b' == y[|a'| + 1..];
  }

  /** An ordinary 429 reaches exactly the keys on the list that are the one tried or, if set so, of its
      vendor. */
  lemma PooledExact(d: Candidate, cur: Candidate, cands: seq<Candidate>, wholeVendor: bool)
    ensures Pooled(d.KeyScope(), cur, cands, wholeVendor)
       <==> d.vendor == cur.vendor && (wholeVendor || d.key == cur.key)
            && exists c :: c in cands && c.vendor == d.vendor && c.key == d.key
  {
    forall c: Candidate ensures c.KeyScope() == d.KeyScope() <==> c.vendor == d.vendor && c.key == d.key {
      ScopesDistinct(c, d);
    }
    hide Candidate.KeyScope;
    if d.vendor == cur.vendor && (wholeVendor || d.key == cur.key)
       && exists c :: c in cands && c.vendor == d.vendor && c.key == d.key {
      var c :| c in cands && c.vendor == d.vendor && c.key == d.key;
      assert SamePool(c, cur, wholeVendor) && c.KeyScope() == d.KeyScope();
    }
  }

  /** Only keys of the pool have begun to cool. */
  ghost predicate CoolsOnly(before: Table, after: Table, now: int,
                            cur: Candidate, cands: seq<Candidate>, wholeVendor: bool) {
    forall s, t :: now <= t && Live(after, s, t).Some? ==>
        Live(before, s, t).Some? || Pooled(s, cur, cands, wholeVendor)
  }

  /** So the other keys stay free: of other vendors always, and of the vendor too unless set otherwise. */
  lemma OthersStayFree(before: Table, after: Table, now: int, cur: Candidate, cands: seq<Candidate>,
                       wholeVendor: bool, d: Candidate, t: int)
    requires CoolsOnly(before, after, now, cur, cands, wholeVendor) && now <= t
    requires d.vendor != cur.vendor || (!wholeVendor && d.key != cur.key)
    requires Live(before, d.KeyScope(), t).None?
    ensures Live(after, d.KeyScope(), t).None?
  {
    hide Candidate.KeyScope, Pooled, Live;
    PooledExact(d, cur, cands, wholeVendor);
  }

  /** Every key of the pool is cooling until then. */
  ghost predicate PoolCools(table: Table, until: int, cur: Candidate, cands: seq<Candidate>, wholeVendor: bool) {
    forall s :: Pooled(s, cur, cands, wholeVendor) ==> Live(table, s, until).Some?
  }

  /** After an ordinary 429: the key alone, or every candidate key of its vendor. */
  method CoolKeys(m: Mem, cands: seq<Candidate>, cur: Candidate, d: int, wholeVendor: bool, now: int) returns (n: nat)
    requires cur in cands
    modifies m
    ensures KeepsCooling(old(m.cooldown), m.cooldown, now)
    ensures d > 0 ==> PoolCools(m.cooldown, now + d, cur, cands, wholeVendor)
    ensures CoolsOnly(old(m.cooldown), m.cooldown, now, cur, cands, wholeVendor)
    ensures d <= 0 ==> m.cooldown == old(m.cooldown)
  {
    hide Decimal;
    m.SetCooldown(cur.KeyScope(), d, now);
    n := 1;
    assert SamePool(cur, cur, wholeVendor);
    if wholeVendor {
      for i := 0 to |cands|
        invariant KeepsCooling(old(m.cooldown), m.cooldown, now)
        invariant CoolsOnly(old(m.cooldown), m.cooldown, now, cur, cands, wholeVendor)
        invariant d > 0 ==> Live(m.cooldown, cur.KeyScope(), now + d).Some?
        invariant d > 0 ==> forall j :: 0 <= j < i && cands[j].vendor == cur.vendor ==>
          Live(m.cooldown, cands[j].KeyScope(), now + d).Some?
        invariant d <= 0 ==> m.cooldown == old(m.cooldown)
      {
        var c := cands[i];
        ghost var before := m.cooldown;
        if c.vendor == cur.vendor && c.key != cur.key {
          assert SamePool(c, cur, wholeVendor);
          m.SetCooldown(c.KeyScope(), d, now);
          n := n + 1;
          assert KeepsCooling(before, m.cooldown, now);
        }
        assert c.vendor == cur.vendor && c.key == cur.key ==> c.KeyScope() == cur.KeyScope();
      }
    }
  }

  lemma KeepsAll(table: Table, now: int)
    ensures KeepsCooling(table, table, now)
  {
  }

  // ---- One attempt ----

  /** Each stays true as long as every failure so far was of its kind. */
  datatype Flags = Flags(onlyRateLimited: bool, authOnly: bool, quotaOnly: bool, timeoutOnly: bool)

  predicate Recorded(f: Flags, tries: seq<Try>) {
    && f.onlyRateLimited == AllLimited(tries) && f.authOnly == AllRefused(tries)
    && f.quotaOnly == AllQuota(tries) && f.timeoutOnly == AllTimeouts(tries)
  }

  predicate FlagsStep(f: Flags, f': Flags, o: Outcome) {
    && f'.onlyRateLimited == (f.onlyRateLimited && Limits(o))
    && f'.authOnly == (f.authOnly && o.AuthRefused?)
    && f'.quotaOnly == (f.quotaOnly && o.Quota429?)
    && f'.timeoutOnly == (f.timeoutOnly && o.NetTimeout?)
  }

  /** The backoff that follows the entry in force. */
  function QuotaStep(e: Option<Entry>, base: int64): int64 {
    if base <= 0 then 0 else BackoffStep(base, QUOTA_COOLDOWN_MAX, if e.Some? then e.value.hits + 1 else 1)
  }

  /** As long as the doubled base fits a word: the base after the first quota 429, twice that after each
      further one while the key is still cooling, a day at most. */
  lemma QuotaStepMeant(e: Option<Entry>, base: int64)
    requires base > 0 && (e.Some? ==> e.value.hits <= 30)
    requires base * Pow2(if e.Some? then e.value.hits else 0) < TWO63
    ensures QuotaStep(e, base)
         == Min(base * Pow2(if e.Some? then e.value.hits else 0), 24 * 60 * 60 * 1_000_000_000)
  {
    hide Pow2;
    assert Shift(if e.Some? then e.value.hits + 1 else 1) == if e.Some? then e.value.hits else 0;
  }

  /** The cooldown an attempt applies to its key, which is found in this state when it ends. */
  function AppliedBy(o: Outcome, e: Option<Entry>, base: int64): int {
    match o
    case Rate429(d) => d
    case Quota429 => QuotaStep(e, base)
    case _ => 0
  }

  /** After a 429 for quota: one more backoff on top of whatever is in force by now, and the mark. */
  method CoolForQuota(m: Mem, scope: string, base: int64, now: int) returns (d: int64)
    modifies m
    ensures d == QuotaStep(Live(old(m.cooldown), scope, now), base)
    ensures forall s, t :: s != scope ==> Live(m.cooldown, s, t) == Live(old(m.cooldown), s, t)
    ensures base > 0 && d >= 0 ==>
              var e := Live(old(m.cooldown), scope, now);
              Live(m.cooldown, scope, now) == Some(Entry(now + d, if e.Some? then e.value.hits + 1 else 1, true))
  {
    hide BackoffStep;
    d := m.Backoff(scope, base, QUOTA_COOLDOWN_MAX, now);
    m.MarkQuotaCooling(scope, d, now);
  }

  /** What an attempt that has ended does to the flags, the largest cooldown applied and the table. */
  method Attempt(m: Mem, cands: seq<Candidate>, c: Candidate, look: Look, cfg: Config, flags: Flags, applied: int)
    returns (f: Flags, a: int)
    requires c in cands && After(look.outcome) != Finish && 0 <= applied
    modifies m
    ensures FlagsStep(flags, f, look.outcome)
    ensures var d := AppliedBy(look.outcome, Live(old(m.cooldown), c.KeyScope(), look.finished), cfg.keyCooldown);
            a == if d > applied then d else applied
    ensures look.outcome.Rate429? ==>
              && KeepsCooling(old(m.cooldown), m.cooldown, look.finished)
              && CoolsOnly(old(m.cooldown), m.cooldown, look.finished, c, cands, cfg.wholeVendor)
              && (look.outcome.cooldown > 0 ==>
                    PoolCools(m.cooldown, look.finished + look.outcome.cooldown, c, cands, cfg.wholeVendor))
    ensures look.outcome.Quota429? ==>
              forall s, t :: s != c.KeyScope() ==> Live(m.cooldown, s, t) == Live(old(m.cooldown), s, t)
    ensures !Limits(look.outcome) ==> m.cooldown == old(m.cooldown)
  {
    hide KeepsCooling, CoolsOnly, PoolCools, Live, Decimal, QuotaStep;
    f, a := flags, applied;
    match look.outcome {
      case NetTimeout => f := f.(onlyRateLimited := false, authOnly := false, quotaOnly := false);
      case Quota429 =>
        var d := CoolForQuota(m, c.KeyScope(), cfg.keyCooldown, look.finished);
        if d > a { a := d; }
        f := f.(authOnly := false, timeoutOnly := false);
      case Rate429(d) =>
        if d > a { a := d; }
        var n := CoolKeys(m, cands, c, d, cfg.wholeVendor, look.finished);
        f := f.(authOnly := false, quotaOnly := false, timeoutOnly := false);
      case AuthRefused => f := f.(onlyRateLimited := false, quotaOnly := false, timeoutOnly := false);
      case _ => f := Flags(false, false, false, false);
    }
  }

  /** A candidate is passed over while its key is cooling, whoever set it so. */
  method Probe(m: Mem, scope: string, now: int) returns (skip: bool, forQuota: bool)
    modifies m
    ensures skip == Live(old(m.cooldown), scope, now).Some?
    ensures forQuota <==> skip && Live(old(m.cooldown), scope, now).value.quota
    ensures Same(old(m.cooldown), m.cooldown, now)
  {
    forQuota := false;
    skip := m.IsCooling(scope, now);
    if skip { forQuota := m.IsQuotaCooling(scope, now); }
  }

  /** The largest cooldown applied. */
  function MaxApplied(tries: seq<Try>): nat {
    if tries == [] then 0
    else
      var rest, d := MaxApplied(tries[..|tries| - 1]), tries[|tries| - 1].applied;
      if d > rest then d else rest
  }

  /** It is a bound, and unless nothing was applied it is reached. */
  lemma {:induction false} MaxAppliedIs(tries: seq<Try>)
    ensures forall x :: x in tries ==> x.applied <= MaxApplied(tries)
    ensures MaxApplied(tries) > 0 ==> exists x :: x in tries && x.applied == MaxApplied(tries)
  {
    if tries != [] {
      var rest, last := tries[..|tries| - 1], tries[|tries| - 1];
      MaxAppliedIs(rest);
      assert tries == rest + [last];
      if MaxApplied(tries) > 0 && last.applied <= MaxApplied(rest) {
        var x :| x in rest && x.applied == MaxApplied(rest);
        assert x in tries;
      }
    }
  }

  method Conclude(flags: Flags, tried: nat, ghost tries: seq<Try>, skipped: nat, skippedQuota: nat, retryAfter: int)
    returns (v: Verdict)
    requires Recorded(flags, tries) && tried == |tries|
    ensures v == Classify(tries, skipped, skippedQuota, retryAfter) && !v.Responded? && !v.ClientGone?
  {
    if flags.quotaOnly && skipped == skippedQuota && (tried > 0 || skipped > 0) { return PaymentRequired; }
    if flags.timeoutOnly { return GatewayTimeout; }
    if flags.onlyRateLimited { return TooManyRequests(retryAfter); }
    if flags.authOnly { return KeysInvalid; }
    return BadGateway;
  }

  predicate Contiguous(cands: seq<Candidate>) {
    forall a, b, c :: 0 <= a < b < c < |cands| && cands[a].channel == cands[c].channel ==>
      cands[b].channel == cands[a].channel
  }
}
