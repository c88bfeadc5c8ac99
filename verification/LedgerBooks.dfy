/** The books of the ledger: what limits, accounts, grants and logs have to do with one another, and
    that each transaction keeps it. */
module LedgerBooks {
  import opened Words
  import opened Chunks
  import opened Ledger

  // ---- Sums over the tables ----

  datatype Selection =
    | All(subject: Subject)
    | InMonth(subject: Subject, period: int)
    | Before(org: int, end: int)
    | From(org: int, start: int)
    | Span(org: int, start: int, end: int)
    | Stamped(subject: Subject, start: int, end: int)

  predicate Of(s: Subject, l: Log) {
    match s
    case OrgSubject(o) => l.org == o
    case UserSubject(u) => l.user == u
  }

  predicate Selects(sel: Selection, l: Log) {
    match sel
    case All(s) => Of(s, l)
    case InMonth(s, p) => Of(s, l) && l.period == p
    case Before(o, end) => l.org == o && l.createdAt < end
    case From(o, start) => l.org == o && l.createdAt >= start
    case Span(o, start, end) => l.org == o && start <= l.createdAt < end
    case Stamped(s, start, end) => Of(s, l) && start <= l.createdAt < end
  }

  function CostIn(sel: Selection, l: Log): int { if Selects(sel, l) then l.cost else 0 }

  function Sum(sel: Selection, logs: seq<Log>): int {
    if logs == [] then 0 else Sum(sel, logs[..|logs| - 1]) + CostIn(sel, logs[|logs| - 1])
  }

  /** Over all rows ever logged, archived or not. */
  function Total(sel: Selection, db: Db): int { Sum(sel, db.logs) + Sum(sel, db.purged) }

  function Granted(s: Subject, grants: seq<Grant>): int {
    if grants == [] then 0
    else
      var g := grants[|grants| - 1];
      Granted(s, grants[..|grants| - 1]) + if g.subject == s then g.amount else 0
  }

  function GrantCount(c: Cause, grants: seq<Grant>): nat {
    if grants == [] then 0
    else GrantCount(c, grants[..|grants| - 1]) + if grants[|grants| - 1].cause == c then 1 else 0
  }

  function LogCount(src: Source, logs: seq<Log>): nat {
    if logs == [] then 0
    else LogCount(src, logs[..|logs| - 1]) + if logs[|logs| - 1].source == src then 1 else 0
  }

  lemma SumSnoc(sel: Selection, logs: seq<Log>, l: Log)
    ensures Sum(sel, logs + [l]) == Sum(sel, logs) + CostIn(sel, l)
  {
    assert (logs + [l])[..|logs|] == logs;
  }

  lemma GrantedSnoc(s: Subject, grants: seq<Grant>, g: Grant)
    ensures Granted(s, grants + [g]) == Granted(s, grants) + if g.subject == s then g.amount else 0
  {
    assert (grants + [g])[..|grants|] == grants;
  }

  lemma GrantCountSnoc(c: Cause, grants: seq<Grant>, g: Grant)
    ensures GrantCount(c, grants + [g]) == GrantCount(c, grants) + if g.cause == c then 1 else 0
  {
    assert (grants + [g])[..|grants|] == grants;
  }

  lemma LogCountSnoc(src: Source, logs: seq<Log>, l: Log)
    ensures LogCount(src, logs + [l]) == LogCount(src, logs) + if l.source == src then 1 else 0
  {
    assert (logs + [l])[..|logs|] == logs;
  }

  lemma {:induction false} SumNothing(sel: Selection, logs: seq<Log>)
    requires forall l :: l in logs && Selects(sel, l) ==> l.cost == 0
    ensures Sum(sel, logs) == 0
  {
    if logs != [] {
      SumNothing(sel, logs[..|logs| - 1]);
    }
  }

  lemma {:induction false} GrantedNothing(s: Subject, grants: seq<Grant>)
    requires forall g :: g in grants ==> g.subject != s
    ensures Granted(s, grants) == 0
  {
    if grants != [] {
      GrantedNothing(s, grants[..|grants| - 1]);
    }
  }

  /** `start(p)` is the first second of month p. */
  ghost predicate Increasing(start: int -> int) {
    forall p :: start(p) < start(p + 1)
  }

  // ---- The invariants ----

  predicate Exists(db: Db, s: Subject) {
    match s
    case OrgSubject(o) => o in db.orgs
    case UserSubject(u) => u in db.users
  }

  function AccountOf(db: Db, s: Subject): Account
    requires Exists(db, s)
  {
    match s
    case OrgSubject(o) => db.orgs[o].account
    case UserSubject(u) => db.users[u].account
  }

  /** The limit, an unlimited user counting as 0. */
  function LimitOf(db: Db, s: Subject): int
    requires Exists(db, s)
  {
    match s
    case OrgSubject(o) => db.orgs[o].limit
    case UserSubject(u) => if db.users[u].limit.None? then 0 else db.users[u].limit.value
  }

  /** Every change of a limit is in the books. */
  ghost predicate Booked(db: Db) {
    forall s :: Exists(db, s) ==> Granted(s, db.grants) == LimitOf(db, s)
  }

  ghost predicate NoneNegative(logs: seq<Log>) {
    forall l :: l in logs ==> 0 <= l.cost
  }

  /** The identifier has never been used: no grant and no usage row mentions it. */
  ghost predicate Fresh(db: Db, s: Subject) {
    && (forall g :: g in db.grants ==> g.subject != s)
    && (forall l :: l in db.logs || l in db.purged ==> !Of(s, l))
  }

  /** Used is what was logged; the monthly figure is what was logged in its month, which is the
      latest month charged. */
  ghost predicate Metered(db: Db) {
    && NoneNegative(db.logs) && NoneNegative(db.purged)
    && (forall s :: Exists(db, s) ==> MeteredFor(db, s))
  }

  ghost predicate MeteredFor(db: Db, s: Subject)
    requires Exists(db, s)
  {
    var a := AccountOf(db, s);
    && a.used == Total(All(s), db)
    && a.monthlyCost == Total(InMonth(s, a.monthlyPeriod), db)
    && (forall l :: (l in db.logs || l in db.purged) && Of(s, l) && l.cost > 0 ==> l.period <= a.monthlyPeriod)
  }

  /** Arrears mean that the limit is used up. */
  ghost predicate ArrearsJustified(db: Db) {
    forall o :: o in db.orgs && db.orgs[o].status == IN_ARREARS ==> db.orgs[o].account.used >= db.orgs[o].limit
  }

  /** A recharge or a quota request has moved the books once if it was approved, never otherwise;
      a request deleted with its user at most once. */
  ghost predicate ClaimsOnce(db: Db) {
    && (forall r :: GrantCount(RechargeOf(r), db.grants)
                    == if r in db.recharges && db.recharges[r].claim == Approved then 1 else 0)
    && (forall r :: GrantCount(RequestOf(r), db.grants) <= 1)
    && (forall r :: r in db.requests ==>
          GrantCount(RequestOf(r), db.grants) == if db.requests[r].claim == Approved then 1 else 0)
  }

  /** A video task has been logged once if it was billed, never otherwise. */
  ghost predicate TasksOnce(db: Db) {
    forall t ::
      LogCount(Video(t), db.logs) + LogCount(Video(t), db.purged)
      == if t in db.tasks && db.tasks[t].billed then 1 else 0
  }

  ghost predicate Inv(db: Db) {
    Booked(db) && Metered(db) && ArrearsJustified(db) && ClaimsOnce(db) && TasksOnce(db)
  }

  // ---- Settlement ----

  lemma ChargedTotals(db: Db, db': Db, s: Subject, l: Log)
    requires Exists(db, s) && MeteredFor(db, s) && Exists(db', s)
    requires db'.logs == db.logs + [l] && db'.purged == db.purged
    requires NoneNegative(db.logs) && NoneNegative(db.purged)
    requires l.cost > 0 && AccountOf(db, s).monthlyPeriod <= l.period
    requires if Of(s, l) then Charge(AccountOf(db, s), l.cost, l.period) == Some(AccountOf(db', s))
             else AccountOf(db', s) == AccountOf(db, s)
    ensures MeteredFor(db', s)
  {
    var a, a' := AccountOf(db, s), AccountOf(db', s);
    SumSnoc(All(s), db.logs, l);
    SumSnoc(InMonth(s, a'.monthlyPeriod), db.logs, l);
    if Of(s, l) && a.monthlyPeriod != l.period {
      SumNothing(InMonth(s, l.period), db.logs);
      SumNothing(InMonth(s, l.period), db.purged);
    }
    assert forall k :: k in db'.logs ==> k in db.logs || k == l;
  }

  lemma FreeRowTotals(db: Db, db': Db, s: Subject, l: Log)
    requires Exists(db, s) && MeteredFor(db, s) && Exists(db', s) && AccountOf(db', s) == AccountOf(db, s)
    requires db'.logs == db.logs + [l] && db'.purged == db.purged && l.cost == 0
    ensures MeteredFor(db', s)
  {
    var a := AccountOf(db, s);
    SumSnoc(All(s), db.logs, l);
    SumSnoc(InMonth(s, a.monthlyPeriod), db.logs, l);
  }

  /** The clock has not gone back: no account of the row is already in a later month. */
  ghost predicate InOrder(db: Db, l: Log) {
    forall s :: Exists(db, s) ==> AccountOf(db, s).monthlyPeriod <= l.period
  }

  lemma ChargeUserKeepsRest(db: Db, l: Log)
    requires ChargeUser(db, l).Done?
    ensures var db' := ChargeUser(db, l).db;
            && db' == db.(users := db'.users) && db'.users.Keys == db.users.Keys
            && (forall u :: u in db.users ==> db'.users[u] == db.users[u].(account := db'.users[u].account))
  {
    hide Charge;
  }

  lemma ChargeOrgKeepsRest(db: Db, l: Log)
    requires ChargeOrg(db, l).Done?
    ensures var db' := ChargeOrg(db, l).db;
            && db' == db.(orgs := db'.orgs) && db'.orgs.Keys == db.orgs.Keys
            && (forall o :: o in db.orgs ==> db'.orgs[o].limit == db.orgs[o].limit)
            && (forall o :: o in db.orgs && db.orgs[o].status == STOPPED ==> db'.orgs[o].status == STOPPED)
            && (ArrearsJustified(db) && l.cost >= 0 ==> ArrearsJustified(db'))
  {
  }

  lemma SettleKeepsRest(db: Db, l: Log)
    requires Settle(db, l).Done?
    ensures var db' := Settle(db, l).db;
            && db' == db.(orgs := db'.orgs, users := db'.users, logs := db.logs + [l])
            && db'.orgs.Keys == db.orgs.Keys && db'.users.Keys == db.users.Keys
            && (forall o :: o in db.orgs ==> db'.orgs[o].limit == db.orgs[o].limit)
            && (forall u :: u in db.users ==> db'.users[u] == db.users[u].(account := db'.users[u].account))
            && (forall o :: o in db.orgs && db.orgs[o].status == STOPPED ==> db'.orgs[o].status == STOPPED)
            && (ArrearsJustified(db) && l.cost >= 0 ==> ArrearsJustified(db'))
  {
    hide ChargeUser, ChargeOrg;
    if l.cost > 0 {
      ChargeUserKeepsRest(db, l);
      ChargeOrgKeepsRest(ChargeUser(db, l).db, l);
    }
  }

  /** The two accounts of the row are charged, every other one is as it was. */
  lemma SettleAccounts(db: Db, l: Log, s: Subject)
    requires Settle(db, l).Done? && Exists(db, s)
    ensures var db' := Settle(db, l).db;
            && Exists(db', s)
            && if Of(s, l) && l.cost > 0 then Charge(AccountOf(db, s), l.cost, l.period) == Some(AccountOf(db', s))
               else AccountOf(db', s) == AccountOf(db, s)
  {
    hide Charge;
  }

  lemma SettleMetered(db: Db, l: Log)
    requires Metered(db) && InOrder(db, l) && Settle(db, l).Done?
    requires 0 <= l.cost
    ensures Metered(Settle(db, l).db)
  {
    hide MeteredFor, Charge, Settle;
    var db' := Settle(db, l).db;
    SettleKeepsRest(db, l);
    forall s | Exists(db', s) ensures MeteredFor(db', s) {
      assert Exists(db, s);
      SettleAccounts(db, l, s);
      if l.cost > 0 { ChargedTotals(db, db', s, l); } else { FreeRowTotals(db, db', s, l); }
    }
  }

  /** Limits and books unchanged, row by row; rows may go. */
  lemma SameLimitsBooked(db: Db, db': Db)
    requires Booked(db) && db'.grants == db.grants
    requires db'.orgs.Keys <= db.orgs.Keys && db'.users.Keys <= db.users.Keys
    requires forall o :: o in db'.orgs ==> db'.orgs[o].limit == db.orgs[o].limit
    requires forall u :: u in db'.users ==> db'.users[u].limit == db.users[u].limit
    ensures Booked(db')
  {
    forall s | Exists(db', s) ensures Granted(s, db'.grants) == LimitOf(db', s) {
      assert Exists(db, s);
    }
  }

  lemma SettleInv(db: Db, l: Log)
    requires Booked(db) && Metered(db) && ArrearsJustified(db) && InOrder(db, l) && Settle(db, l).Done?
    requires 0 <= l.cost
    ensures var db' := Settle(db, l).db; Booked(db') && Metered(db') && ArrearsJustified(db')
  {
    hide Booked, Metered, ArrearsJustified, Settle, InOrder;
    SettleMetered(db, l);
    SettleKeepsRest(db, l);
    SameLimitsBooked(db, Settle(db, l).db);
  }

  // ---- Limits ----

  /** db' is db with the limit of s moved by delta and the difference entered; accounts and logs
      are as they were, new rows start empty. */
  ghost predicate Entered(db: Db, db': Db, s: Subject, delta: int64, c: Cause) {
    && Exists(db', s)
    && (forall t :: Exists(db, t) ==> Exists(db', t) && AccountOf(db', t) == AccountOf(db, t))
    && (forall t :: Exists(db', t) && !Exists(db, t) ==> AccountOf(db', t) == NEW_ACCOUNT && Fresh(db, t))
    && (forall t :: Exists(db', t) && t != s ==> LimitOf(db', t) == if Exists(db, t) then LimitOf(db, t) else 0)
    && LimitOf(db', s) == (if Exists(db, s) then LimitOf(db, s) else 0) + delta
    && (db'.grants == db.grants + [Grant(s, delta, c)] || (delta == 0 && db'.grants == db.grants))
    && db'.logs == db.logs && db'.purged == db.purged
  }

  lemma EnteredBooked(db: Db, db': Db, s: Subject, delta: int64, c: Cause)
    requires Booked(db) && Entered(db, db', s, delta, c)
    ensures Booked(db')
  {
    forall t | Exists(db', t) ensures Granted(t, db'.grants) == LimitOf(db', t) {
      GrantedSnoc(t, db.grants, Grant(s, delta, c));
      if !Exists(db, t) { GrantedNothing(t, db.grants); }
    }
  }

  lemma EnteredMetered(db: Db, db': Db, s: Subject, delta: int64, c: Cause)
    requires Metered(db) && Entered(db, db', s, delta, c)
    ensures Metered(db')
  {
    SameAccountsMetered(db, db');
  }

  /** Accounts and logs unchanged; rows may go, or come with a new account. */
  lemma SameAccountsMetered(db: Db, db': Db)
    requires Metered(db) && db'.logs == db.logs && db'.purged == db.purged
    requires forall s :: Exists(db', s) && Exists(db, s) ==> AccountOf(db', s) == AccountOf(db, s)
    requires forall s :: Exists(db', s) && !Exists(db, s) ==> AccountOf(db', s) == NEW_ACCOUNT && Fresh(db, s)
    ensures Metered(db')
  {
    hide MeteredFor;
    forall s | Exists(db', s) ensures MeteredFor(db', s) {
      if Exists(db, s) { SameMeter(db, db', s); } else { NewMeter(db', s); }
    }
  }

  lemma SameMeter(db: Db, db': Db, s: Subject)
    requires Exists(db, s) && Exists(db', s) && MeteredFor(db, s)
    requires AccountOf(db', s) == AccountOf(db, s) && db'.logs == db.logs && db'.purged == db.purged
    ensures MeteredFor(db', s)
  {
  }

  lemma NewMeter(db: Db, s: Subject)
    requires Exists(db, s) && AccountOf(db, s) == NEW_ACCOUNT
    requires forall l :: l in db.logs || l in db.purged ==> !Of(s, l)
    ensures MeteredFor(db, s)
  {
    SumNothing(All(s), db.logs);
    SumNothing(All(s), db.purged);
    SumNothing(InMonth(s, NO_PERIOD), db.logs);
    SumNothing(InMonth(s, NO_PERIOD), db.purged);
  }

  lemma SetOrgQuotaEntered(db: Db, org: int, limit: int64)
    requires 0 <= limit && org in db.orgs && Fits(limit - db.orgs[org].limit)
    ensures SetOrgQuota(db, org, limit).Done?
    ensures Entered(db, SetOrgQuota(db, org, limit).db, OrgSubject(org), limit - db.orgs[org].limit, Manual)
  {
  }

  /** The books balance exactly when the difference fits 64 bits. */
  lemma SetOrgQuotaBooked(db: Db, org: int, limit: int64)
    requires Booked(db) && 0 <= limit && org in db.orgs
    ensures SetOrgQuota(db, org, limit).Done?
    ensures Booked(SetOrgQuota(db, org, limit).db) <==> Fits(limit - db.orgs[org].limit)
  {
    hide Entered, Granted;
    var db', s, delta := SetOrgQuota(db, org, limit).db, OrgSubject(org), limit - db.orgs[org].limit;
    if Fits(delta) {
      SetOrgQuotaEntered(db, org, limit);
      EnteredBooked(db, db', s, delta, Manual);
    } else {
      assert Exists(db, s) && Exists(db', s);
      GrantedSnoc(s, db.grants, Grant(s, Wrap64(delta), Manual));
    }
  }

  /** The difference booked by a switch between limited and unlimited. */
  function SwitchDelta(u: User): int {
    if u.limit.None? then u.account.used else 0 - u.limit.value
  }

  lemma SetUserUnlimitedEntered(db: Db, org: int, user: int, unlimited: bool)
    requires SetUserUnlimited(db, org, user, unlimited).Done? && unlimited != db.users[user].limit.None?
    requires Fits(SwitchDelta(db.users[user]))
    ensures Entered(db, SetUserUnlimited(db, org, user, unlimited).db,
                    UserSubject(user), SwitchDelta(db.users[user]), Manual)
  {
  }

  /** Only the one limit whose negation does not exist in 64 bits is booked with the wrong sign. */
  lemma SetUserUnlimitedBooked(db: Db, org: int, user: int, unlimited: bool)
    requires Booked(db) && SetUserUnlimited(db, org, user, unlimited).Done?
    ensures Booked(SetUserUnlimited(db, org, user, unlimited).db)
            <==> !(unlimited && db.users[user].limit == Some(-TWO63))
  {
    hide Entered, Granted;
    var db', s, u := SetUserUnlimited(db, org, user, unlimited).db, UserSubject(user), db.users[user];
    if unlimited != u.limit.None? {
      if Fits(SwitchDelta(u)) {
        SetUserUnlimitedEntered(db, org, user, unlimited);
        EnteredBooked(db, db', s, SwitchDelta(u), Manual);
      } else {
        assert Exists(db, s) && Exists(db', s);
        GrantedSnoc(s, db.grants, Grant(s, -TWO63, Manual));
      }
    }
  }

  // ---- The monthly figure ----

  /** After a charge the monthly figure is what was logged in that month exactly when the account
      was in that month already, or had nothing logged in it. A charge that is committed after one
      of a later month breaks this twice: for its own month and for the one it displaces. */
  lemma MonthFigureExact(db: Db, db': Db, s: Subject, l: Log)
    requires Exists(db, s) && MeteredFor(db, s) && Exists(db', s) && Of(s, l)
    requires db'.logs == db.logs + [l] && db'.purged == db.purged
    requires Charge(AccountOf(db, s), l.cost, l.period) == Some(AccountOf(db', s))
    ensures AccountOf(db', s).monthlyCost == Total(InMonth(s, l.period), db')
            <==> AccountOf(db, s).monthlyPeriod == l.period || Total(InMonth(s, l.period), db) == 0
  {
    SumSnoc(InMonth(s, l.period), db.logs, l);
  }

  /** The month's figure that admission looks at is what was logged in that month, also when the
      account has not been charged in it yet. */
  lemma MonthlyCostExact(db: Db, s: Subject, period: int)
    requires Metered(db) && Exists(db, s) && AccountOf(db, s).monthlyPeriod <= period
    ensures MonthlyCost(AccountOf(db, s), period) == Total(InMonth(s, period), db)
  {
    assert MeteredFor(db, s);
    if AccountOf(db, s).monthlyPeriod < period {
      SumNothing(InMonth(s, period), db.logs);
      SumNothing(InMonth(s, period), db.purged);
    }
  }

  /** A charge stops its organization exactly when it was enabled, has a positive limit, and the
      charge uses it up. */
  lemma SettleStopsExactly(db: Db, l: Log, org: int)
    requires Settle(db, l).Done? && org in db.orgs
    ensures var o, o' := db.orgs[org], Settle(db, l).db.orgs[org];
            o'.status == if l.cost > 0 && l.org == org && o.status == ENABLED && o.limit > 0
                && o.account.used + l.cost >= o.limit
                         then IN_ARREARS else o.status
  {
    hide ChargeUser, ChargeOrg;
    if l.cost > 0 {
      ChargeUserKeepsRest(db, l);
      ChargeOrgStops(ChargeUser(db, l).db, l, org);
    }
  }

  lemma ChargeOrgStops(db: Db, l: Log, org: int)
    requires ChargeOrg(db, l).Done? && org in db.orgs
    ensures var o, o' := db.orgs[org], ChargeOrg(db, l).db.orgs[org];
            o'.status == if l.org == org && o.status == ENABLED && o.limit > 0 && o.account.used + l.cost >= o.limit
                         then IN_ARREARS else o.status
  {
  }

  // ---- Archiving ----

  predicate Due(l: Log, start: int, end: int) { start <= l.createdAt < end }

  /** The rows of a span of time (`due`), or all the others. */
  function Part(logs: seq<Log>, start: int, end: int, due: bool): seq<Log> {
    if logs == [] then []
    else
      var rest, l := Part(logs[..|logs| - 1], start, end, due), logs[|logs| - 1];
      if Due(l, start, end) == due then rest + [l] else rest
  }

  /** Moves the rows of a span of time out of the log table. */
  function Archive(db: Db, start: int, end: int): Db {
    db.(logs := Part(db.logs, start, end, false), purged := db.purged + Part(db.logs, start, end, true))
  }

  lemma {:induction false} PartExact(logs: seq<Log>, start: int, end: int, due: bool)
    ensures forall l :: l in Part(logs, start, end, due) <==> l in logs && Due(l, start, end) == due
  {
    if logs != [] {
      PartExact(logs[..|logs| - 1], start, end, due);
      assert logs == logs[..|logs| - 1] + [logs[|logs| - 1]];
    }
  }

  lemma {:induction false} SumAppend(sel: Selection, xs: seq<Log>, ys: seq<Log>)
    ensures Sum(sel, xs + ys) == Sum(sel, xs) + Sum(sel, ys)
  {
    if ys == [] {
      assert xs + ys == xs;
    } else {
      SumAppend(sel, xs, ys[..|ys| - 1]);
      assert (xs + ys)[..|xs + ys| - 1] == xs + ys[..|ys| - 1];
    }
  }

  lemma {:induction false} LogCountAppend(src: Source, xs: seq<Log>, ys: seq<Log>)
    ensures LogCount(src, xs + ys) == LogCount(src, xs) + LogCount(src, ys)
  {
    if ys == [] {
      assert xs + ys == xs;
    } else {
      LogCountAppend(src, xs, ys[..|ys| - 1]);
      assert (xs + ys)[..|xs + ys| - 1] == xs + ys[..|ys| - 1];
    }
  }

  lemma {:induction false} SumParts(sel: Selection, logs: seq<Log>, start: int, end: int)
    ensures Sum(sel, logs) == Sum(sel, Part(logs, start, end, false)) + Sum(sel, Part(logs, start, end, true))
  {
    if logs != [] {
      var rest, l := logs[..|logs| - 1], logs[|logs| - 1];
      SumParts(sel, rest, start, end);
      SumSnoc(sel, Part(rest, start, end, Due(l, start, end)), l);
    }
  }

  lemma {:induction false} LogCountParts(src: Source, logs: seq<Log>, start: int, end: int)
    ensures LogCount(src, logs) == LogCount(src, Part(logs, start, end, false))
        + LogCount(src, Part(logs, start, end, true))
  {
    if logs != [] {
      var rest, l := logs[..|logs| - 1], logs[|logs| - 1];
      LogCountParts(src, rest, start, end);
      LogCountSnoc(src, Part(rest, start, end, Due(l, start, end)), l);
    }
  }

  lemma ArchiveTotals(db: Db, start: int, end: int, sel: Selection)
    ensures Total(sel, Archive(db, start, end)) == Total(sel, db)
  {
    SumParts(sel, db.logs, start, end);
    SumAppend(sel, db.purged, Part(db.logs, start, end, true));
  }

  lemma ArchiveInv(db: Db, start: int, end: int)
    requires Inv(db)
    ensures Inv(Archive(db, start, end))
  {
    hide Sum, LogCount, Part, GrantCount, Granted;
    var db' := Archive(db, start, end);
    PartExact(db.logs, start, end, true);
    PartExact(db.logs, start, end, false);
    assert Booked(db') by { SameLimitsBooked(db, db'); }
    forall s | Exists(db', s) ensures MeteredFor(db', s) {
      assert Exists(db, s) && MeteredFor(db, s);
      ArchiveTotals(db, start, end, All(s));
      ArchiveTotals(db, start, end, InMonth(s, AccountOf(db, s).monthlyPeriod));
    }
    forall t ensures LogCount(Video(t), db'.logs) + LogCount(Video(t), db'.purged)
                     == LogCount(Video(t), db.logs) + LogCount(Video(t), db.purged) {
      LogCountParts(Video(t), db.logs, start, end);
      LogCountAppend(Video(t), db.purged, Part(db.logs, start, end, true));
    }
  }
}
