/** Admission is checked before a call and the call is charged after it, so a limit can be
    overshot; how far is bounded (internal/service/quota.go, internal/gateway/handler.go). */
module Admission {
  import opened Words
  import opened Chunks
  import opened Ledger
  import opened LedgerBooks

  /** An admitted call that has not been settled. */
  datatype Ticket = Ticket(user: int, org: int)

  datatype Flow = Flow(db: Db, inflight: seq<Ticket>)

  /** Calls arrive and finish in any order; a month is given with each, since neither check nor
      charge needs them to be in order. */
  datatype Event =
    | Arrive(user: int, month: int)
    | Finish(call: nat, cost: int64, requestId: int, month: int, now: int)

  function Next(f: Flow, e: Event): Flow {
    match e
    case Arrive(user, month) =>
      if Precheck(f.db, user, month) != Admitted then f
      else Flow(f.db, f.inflight + [Ticket(user, f.db.users[user].org)])
    case Finish(call, cost, requestId, month, now) =>
      if call >= |f.inflight| then f
      else
        var t := f.inflight[call];
        var rest := f.inflight[..call] + f.inflight[call + 1..];
        match Settle(f.db, Log(t.org, t.user, cost, Chat(requestId), month, now))
        case Rejected(_) => Flow(f.db, rest)
        case Done(db) => Flow(db, rest)
  }

  function RunFlow(f: Flow, events: seq<Event>): Flow
    decreases |events|
  {
    if events == [] then f else RunFlow(Next(f, events[0]), events[1..])
  }

  predicate Holds(t: Ticket, s: Subject) {
    match s
    case OrgSubject(o) => t.org == o
    case UserSubject(u) => t.user == u
  }

  function Holders(s: Subject, tickets: seq<Ticket>): nat {
    if tickets == [] then 0
    else Holders(s, tickets[..|tickets| - 1]) + if Holds(tickets[|tickets| - 1], s) then 1 else 0
  }

  function Times(k: nat, cost: nat): nat { k * cost }

  predicate Limited(db: Db, s: Subject) {
    Exists(db, s) && (s.UserSubject? ==> db.users[s.user].limit.Some?)
  }

  /** What the bound is about: every call costs at most `most`, and at most n of the subject's
      calls are in flight. */
  predicate Moderate(f: Flow, e: Event, s: Subject, n: nat, most: nat) {
    match e
    case Arrive(_, _) => Holders(s, Next(f, e).inflight) <= n
    case Finish(_, cost, _, _, _) => 0 <= cost <= most
  }

  predicate ModerateRun(f: Flow, events: seq<Event>, s: Subject, n: nat, most: nat)
    decreases |events|
  {
    events == [] || (Moderate(f, events[0], s, n, most) && ModerateRun(Next(f, events[0]), events[1..], s, n, most))
  }

  /** Used, plus the worst the calls in flight can still add. */
  predicate Bounded(f: Flow, s: Subject, n: nat, most: nat) {
    Limited(f.db, s) && AccountOf(f.db, s).used + Times(Holders(s, f.inflight), most)
        <= LimitOf(f.db, s) - 1 + Times(n, most)
  }

  lemma HoldersSnoc(s: Subject, tickets: seq<Ticket>, t: Ticket)
    ensures Holders(s, tickets + [t]) == Holders(s, tickets) + if Holds(t, s) then 1 else 0
  {
    assert (tickets + [t])[..|tickets|] == tickets;
  }

  lemma {:induction false} HoldersRemove(s: Subject, tickets: seq<Ticket>, k: nat)
    requires k < |tickets|
    ensures Holders(s, tickets[..k] + tickets[k + 1..]) + (if Holds(tickets[k], s) then 1 else 0) == Holders(s, tickets)
  {
    var rest, last := tickets[..|tickets| - 1], tickets[|tickets| - 1];
    if k == |tickets| - 1 {
      assert tickets[..k] + tickets[k + 1..] == rest;
    } else {
      HoldersRemove(s, rest, k);
      assert tickets[..k] + tickets[k + 1..] == (rest[..k] + rest[k + 1..]) + [last];
      HoldersSnoc(s, rest[..k] + rest[k + 1..], last);
    }
  }

  lemma TimesNext(k: nat, cost: nat)
    ensures Times(k + 1, cost) == Times(k, cost) + cost
  {
  }

  lemma TimesMono(k: nat, n: nat, cost: nat)
    requires k <= n
    ensures Times(k, cost) <= Times(n, cost)
  {
    MulMono(k, n, cost, cost);
  }

  lemma ArriveBounded(f: Flow, e: Event, s: Subject, n: nat, most: nat)
    requires e.Arrive? && Bounded(f, s, n, most) && Moderate(f, e, s, n, most)
    ensures Bounded(Next(f, e), s, n, most) && LimitOf(Next(f, e).db, s) == LimitOf(f.db, s)
  {
    hide Holders, Times;
    if Precheck(f.db, e.user, e.month) == Admitted {
      var t := Ticket(e.user, f.db.users[e.user].org);
      HoldersSnoc(s, f.inflight, t);
      if Holds(t, s) {
        TimesMono(Holders(s, f.inflight) + 1, n, most);
      }
    }
  }

  /** A settlement adds the cost to the two accounts of the call, or is rejected altogether. */
  lemma SettleAdds(db: Db, l: Log, s: Subject)
    requires Limited(db, s) && 0 <= l.cost && Settle(db, l).Done?
    ensures var db' := Settle(db, l).db;
            && Limited(db', s) && LimitOf(db', s) == LimitOf(db, s)
            && AccountOf(db', s).used == AccountOf(db, s).used + if Of(s, l) then l.cost else 0
  {
    hide ChargeUser, ChargeOrg;
    if l.cost > 0 {
      ChargeUserAdds(db, l, s);
      ChargeOrgAdds(ChargeUser(db, l).db, l, s);
    }
  }

  lemma ChargeUserAdds(db: Db, l: Log, s: Subject)
    requires Limited(db, s) && ChargeUser(db, l).Done?
    ensures var db' := ChargeUser(db, l).db;
            && Limited(db', s) && LimitOf(db', s) == LimitOf(db, s)
            && AccountOf(db', s).used == AccountOf(db, s).used + if s == UserSubject(l.user) then l.cost else 0
  {
  }

  lemma ChargeOrgAdds(db: Db, l: Log, s: Subject)
    requires Limited(db, s) && ChargeOrg(db, l).Done?
    ensures var db' := ChargeOrg(db, l).db;
            && Limited(db', s) && LimitOf(db', s) == LimitOf(db, s)
            && AccountOf(db', s).used == AccountOf(db, s).used + if s == OrgSubject(l.org) then l.cost else 0
  {
  }

  lemma FinishBounded(f: Flow, e: Event, s: Subject, n: nat, most: nat)
    requires e.Finish? && Bounded(f, s, n, most) && Moderate(f, e, s, n, most)
    ensures Bounded(Next(f, e), s, n, most) && LimitOf(Next(f, e).db, s) == LimitOf(f.db, s)
  {
    hide Holders, Times, Settle;
    if e.call < |f.inflight| {
      var t := f.inflight[e.call];
      var l := Log(t.org, t.user, e.cost, Chat(e.requestId), e.month, e.now);
      HoldersRemove(s, f.inflight, e.call);
      if Holds(t, s) { TimesNext(Holders(s, f.inflight) - 1, most); }
      if Settle(f.db, l).Done? { SettleAdds(f.db, l, s); }
    }
  }

  /** Over every interleaving of arrivals and settlements, an organization or a limited user never
      exceeds its limit by more than the calls that were in flight together may cost. */
  lemma {:induction false} OvershootBounded(f: Flow, events: seq<Event>, s: Subject, n: nat, most: nat)
    requires Bounded(f, s, n, most) && ModerateRun(f, events, s, n, most)
    ensures Bounded(RunFlow(f, events), s, n, most)
    ensures LimitOf(RunFlow(f, events).db, s) == LimitOf(f.db, s)
    decreases |events|
  {
    hide Bounded, Moderate, Next;
    if events != [] {
      var e := events[0];
      if e.Arrive? { ArriveBounded(f, e, s, n, most); } else { FinishBounded(f, e, s, n, most); }
      assert Limited(f.db, s) by { BoundedLimited(f, s, n, most); }
      OvershootBounded(Next(f, e), events[1..], s, n, most);
    }
  }

  lemma BoundedLimited(f: Flow, s: Subject, n: nat, most: nat)
    requires Bounded(f, s, n, most)
    ensures Limited(f.db, s)
  {
  }

  /** Within the limit to begin with and nothing in flight: used stays under limit + n * most, so
      with one call at a time the overshoot is less than one call. */
  lemma OvershootFromRest(f: Flow, events: seq<Event>, s: Subject, n: nat, most: nat)
    requires Limited(f.db, s) && f.inflight == [] && AccountOf(f.db, s).used <= LimitOf(f.db, s) && 0 < n && 0 < most
    requires ModerateRun(f, events, s, n, most)
    ensures Limited(RunFlow(f, events).db, s)
    ensures AccountOf(RunFlow(f, events).db, s).used < LimitOf(f.db, s) + n * most
  {
    hide ModerateRun, RunFlow;
    TimesMono(1, n, most);
    OvershootBounded(f, events, s, n, most);
  }

  // ---- The bound is reached ----

  function Burst(user: int, n: nat, cost: int64): seq<Event> {
    seq(n, _ => Arrive(user, 0)) + seq(n, _ => Finish(0, cost, 0, 0, 0))
  }

  /** A user of an organization, both one point short of their limits. */
  function OneShort(limit: int64): Db
    requires 0 < limit
  {
    Db(map[1 := Org(limit, Account(limit - 1, 0, 0), 0, ENABLED)],
       map[1 := User(1, Some(limit), Account(limit - 1, 0, 0), 0)], [], [], [], map[], map[], map[])
  }

  lemma {:induction false} AllArrive(db: Db, n: nat, tickets: seq<Ticket>, rest: seq<Event>)
    requires 1 in db.users && Precheck(db, 1, 0) == Admitted
    ensures RunFlow(Flow(db, tickets), seq(n, _ => Arrive(1, 0)) + rest)
         == RunFlow(Flow(db, tickets + seq(n, _ => Ticket(1, db.users[1].org))), rest)
  {
    var events := seq(n, _ => Arrive(1, 0)) + rest;
    if n == 0 {
      assert events == rest;
      assert tickets + seq(n, _ => Ticket(1, db.users[1].org)) == tickets;
    } else {
      var t := Ticket(1, db.users[1].org);
      assert events[1..] == seq(n - 1, _ => Arrive(1, 0)) + rest;
      assert Next(Flow(db, tickets), events[0]) == Flow(db, tickets + [t]);
      AllArrive(db, n - 1, tickets + [t], rest);
      assert tickets + [t] + seq(n - 1, _ => t) == tickets + seq(n, _ => t);
    }
  }

  /** Both accounts can take this much more without leaving the 64-bit range. */
  ghost predicate Roomy(db: Db, more: int) {
    && 1 in db.orgs && 1 in db.users
    && 0 <= db.orgs[1].account.monthlyCost <= db.orgs[1].account.used && db.orgs[1].account.used + more < TWO63
    && 0 <= db.users[1].account.monthlyCost <= db.users[1].account.used && db.users[1].account.used + more < TWO63
  }

  lemma OneFinish(db: Db, cost: int64, more: nat)
    requires Roomy(db, cost + more) && 0 < cost
    ensures var r := Settle(db, Log(1, 1, cost, Chat(0), 0, 0));
            && r.Done? && Roomy(r.db, more)
            && r.db.orgs[1].account.used == db.orgs[1].account.used + cost
            && r.db.users[1].account.used == db.users[1].account.used + cost
  {
  }

  lemma {:induction false} AllFinish(db: Db, n: nat, cost: int64)
    requires 0 < cost && Roomy(db, Times(n, cost))
    ensures var db' := RunFlow(Flow(db, seq(n, _ => Ticket(1, 1))), seq(n, _ => Finish(0, cost, 0, 0, 0))).db;
            && 1 in db'.orgs && db'.orgs[1].account.used == db.orgs[1].account.used + Times(n, cost)
            && 1 in db'.users && db'.users[1].account.used == db.users[1].account.used + Times(n, cost)
    decreases n
  {
    hide Settle, Times;
    if n == 0 {
      assert Times(0, cost) == 0 by { TimesNone(cost); }
    } else {
      var f, events := Flow(db, seq(n, _ => Ticket(1, 1))), seq(n, _ => Finish(0, cost, 0, 0, 0));
      TimesNext(n - 1, cost);
      OneFinish(db, cost, Times(n - 1, cost));
      var db1 := Settle(db, Log(1, 1, cost, Chat(0), 0, 0)).db;
      assert f.inflight[..0] + f.inflight[1..] == seq(n - 1, _ => Ticket(1, 1));
      assert events[1..] == seq(n - 1, _ => Finish(0, cost, 0, 0, 0));
      assert Next(f, events[0]) == Flow(db1, seq(n - 1, _ => Ticket(1, 1)));
      AllFinish(db1, n - 1, cost);
    }
  }

  lemma TimesNone(cost: nat)
    ensures Times(0, cost) == 0
  {
  }

  /** For every limit, call cost and number of calls in flight there is a run that ends exactly at
      the bound, for the organization and the user alike. */
  lemma BoundReached(limit: int64, n: nat, cost: int64)
    requires 0 < limit && 0 < cost && limit + n * cost < TWO63
    ensures var db' := RunFlow(Flow(OneShort(limit), []), Burst(1, n, cost)).db;
            && 1 in db'.orgs && db'.orgs[1].account.used == limit - 1 + n * cost
            && 1 in db'.users && db'.users[1].account.used == limit - 1 + n * cost
  {
    hide RunFlow;
    var db := OneShort(limit);
    AllArrive(db, n, [], seq(n, _ => Finish(0, cost, 0, 0, 0)));
    assert [] + seq(n, _ => Ticket(1, db.users[1].org)) == seq(n, _ => Ticket(1, 1));
    assert Times(n, cost) == n * cost;
    AllFinish(db, n, cost);
  }
}
