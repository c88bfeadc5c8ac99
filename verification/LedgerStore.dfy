/** The transactions themselves, statement by statement on working copies of the tables that are
    written back on commit and dropped on rollback. */
module LedgerStore {
  import opened Words
  import opened Chunks
  import opened Ledger

  /** The new state is the transaction's, or the old one when it was rejected. */
  predicate Committed(before: Db, r: Result, after: Db, error: Option<Error>) {
    match r
    case Done(db) => after == db && error == None
    case Rejected(e) => after == before && error == Some(e)
  }

  class Store {
    var orgs: map<int, Org>
    var users: map<int, User>
    var grants: seq<Grant>
    var logs: seq<Log>
    var purged: seq<Log>
    var recharges: map<int, Recharge>
    var requests: map<int, Request>
    var tasks: map<int, Task>

    constructor ()
      ensures View() == Db(map[], map[], [], [], [], map[], map[], map[])
    {
      orgs, users, grants, logs, purged := map[], map[], [], [], [];
      recharges, requests, tasks := map[], map[], map[];
    }

    function View(): Db
      reads this
    {
      Db(orgs, users, grants, logs, purged, recharges, requests, tasks)
    }

    method PrecheckUser(user: int, period: int) returns (v: Verdict)
      ensures v == Precheck(View(), user, period)
    {
      if user !in users || users[user].org !in orgs { return NoSuchUser; }
      var u, o := users[user], orgs[users[user].org];
      var userMonth, orgMonth := 0, 0;
      if u.account.monthlyPeriod == period { userMonth := u.account.monthlyCost; }
      if o.account.monthlyPeriod == period { orgMonth := o.account.monthlyCost; }
      if u.limit.Some? && u.account.used >= u.limit.value { return UserQuota; }
      if u.monthlyQuota > 0 && userMonth >= u.monthlyQuota { return UserMonthly; }
      if o.account.used >= o.limit { return OrgQuota; }
      if o.monthlyQuota > 0 && orgMonth >= o.monthlyQuota { return OrgMonthly; }
      return Admitted;
    }

    method SettleTx(l: Log) returns (error: Option<Error>)
      modifies this
      ensures Committed(old(View()), Settle(old(View()), l), View(), error)
    {
      var users', orgs' := users, orgs;
      if l.cost > 0 {
        if l.user in users' {
          var a := Charge(users'[l.user].account, l.cost, l.period);
          if a.None? { return Some(OutOfRange); }
          users' := users'[l.user := users'[l.user].(account := a.value)];
        }
        if l.org in orgs' {
          var a := Charge(orgs'[l.org].account, l.cost, l.period);
          if a.None? { return Some(OutOfRange); }
          orgs' := orgs'[l.org := orgs'[l.org].(account := a.value)];
          var o := orgs'[l.org];
          if o.status == ENABLED && o.limit > 0 && o.account.used >= o.limit {
            o := o.(status := IN_ARREARS);
          }
          orgs' := orgs'[l.org := o];
        }
      }
      users, orgs, logs := users', orgs', logs + [l];
      return None;
    }

    method AddOrgQuotaTx(org: int, amount: int64, cause: Cause) returns (error: Option<Error>)
      modifies this
      ensures Committed(old(View()), AddOrgQuota(old(View()), org, amount, cause), View(), error)
    {
      if org !in orgs { return Some(NotFound); }
      var o := orgs[org];
      if !AddNoWrap(o.limit, amount) { return Some(QuotaOverflow); }
      o := o.(limit := o.limit + amount);
      if o.status == IN_ARREARS && o.limit > o.account.used { o := o.(status := ENABLED); }
      orgs := orgs[org := o];
      grants := grants + [Grant(OrgSubject(org), amount, cause)];
      return None;
    }

    method SetOrgQuotaTo(org: int, limit: int64) returns (delta: int64, error: Option<Error>)
      modifies this
      ensures Committed(old(View()), SetOrgQuota(old(View()), org, limit), View(), error)
      ensures error.None? ==> org in old(orgs) && delta == Wrap64(limit - old(orgs)[org].limit)
      ensures error.Some? ==> delta == 0
    {
      if limit < 0 { return 0, Some(QuotaOverflow); }
      if org !in orgs { return 0, Some(NotFound); }
      var o := orgs[org];
      delta := Wrap64(limit - o.limit);
      o := o.(limit := limit);
      if o.status == IN_ARREARS && o.limit > o.account.used { o := o.(status := ENABLED); }
      orgs := orgs[org := o];
      if delta != 0 { grants := grants + [Grant(OrgSubject(org), delta, Manual)]; }
      return delta, None;
    }

    method NewOrg(org: int, admin: int, amount: int64) returns (error: Option<Error>)
      modifies this
      ensures Committed(old(View()), CreateOrg(old(View()), org, admin, amount), View(), error)
    {
      if amount < 0 { return Some(BadAmount); }
      if org in orgs || admin in users { return Some(Duplicate); }
      orgs := orgs[org := Org(0, NEW_ACCOUNT, 0, ENABLED)];
      if amount != 0 {
        orgs := orgs[org := orgs[org].(limit := amount)];
        grants := grants + [Grant(OrgSubject(org), amount, Manual)];
      }
      users := users[admin := User(org, None, NEW_ACCOUNT, 0)];
      return None;
    }

    method NewMember(user: int, org: int, amount: int64) returns (error: Option<Error>)
      modifies this
      ensures Committed(old(View()), CreateMember(old(View()), user, org, amount), View(), error)
    {
      if amount < 0 { return Some(BadAmount); }
      if user in users { return Some(Duplicate); }
      users := users[user := User(org, None, NEW_ACCOUNT, 0)];
      if amount != 0 {
        users := users[user := users[user].(limit := Some(amount))];
        grants := grants + [Grant(UserSubject(user), amount, Manual)];
      }
      return None;
    }

    method AddUserQuotaTx(org: int, user: int, amount: int64, cause: Cause) returns (error: Option<Error>)
      modifies this
      ensures Committed(old(View()), AddUserQuota(old(View()), org, user, amount, cause), View(), error)
    {
      if user !in users || users[user].org != org { return Some(NotFound); }
      var u := users[user];
      if u.limit.None? { return Some(QuotaUnlimited); }
      if !AddNoWrap(u.limit.value, amount) { return Some(QuotaOverflow); }
      users := users[user := u.(limit := Some(u.limit.value + amount))];
      grants := grants + [Grant(UserSubject(user), amount, cause)];
      return None;
    }

    method SetUserQuotaUnlimited(org: int, user: int, unlimited: bool) returns (error: Option<Error>)
      modifies this
      ensures Committed(old(View()), SetUserUnlimited(old(View()), org, user, unlimited), View(), error)
    {
      if user !in users || users[user].org != org { return Some(NotFound); }
      var u := users[user];
      var newLimit: Option<int64>, delta: int64 := None, 0;
      if unlimited && u.limit.Some? {
        delta := Wrap64(0 - u.limit.value);
      } else if !unlimited && u.limit.None? {
        newLimit, delta := Some(u.account.used), u.account.used;
      } else {
        return None;
      }
      users := users[user := u.(limit := newLimit)];
      if delta != 0 { grants := grants + [Grant(UserSubject(user), delta, Manual)]; }
      return None;
    }

    method DeleteMemberTx(org: int, user: int) returns (error: Option<Error>)
      modifies this
      ensures Committed(old(View()), DeleteMember(old(View()), org, user), View(), error)
    {
      if user !in users || users[user].org != org { return Some(NotFound); }
      users := users - {user};
      requests := map r | r in requests && !RequestedBy(requests[r], {user}) :: requests[r];
      return None;
    }

    /** The users go first; their requests go with them. */
    method DeleteOrgTx(org: int) returns (error: Option<Error>)
      modifies this
      ensures Committed(old(View()), DeleteOrg(old(View()), org), View(), error)
    {
      if org !in orgs { return Some(NotFound); }
      var gone := set u | u in users && users[u].org == org;
      users := users - gone;
      requests := map r | r in requests && !RequestedBy(requests[r], gone) :: requests[r];
      orgs := orgs - {org};
      return None;
    }

    method HandleRechargeTx(id: int, approve: bool, org: int, amount: int64) returns (error: Option<Error>)
      modifies this
      ensures Committed(old(View()), HandleRecharge(old(View()), id, approve, org, amount), View(), error)
    {
      if id !in recharges || recharges[id].claim != Pending { return Some(AlreadyHandled); }
      var before := recharges;
      recharges := recharges[id := recharges[id].(claim := if approve then Approved else Refused)];
      if approve {
        error := AddOrgQuotaTx(org, amount, RechargeOf(id));
        if error.Some? { recharges := before; }
        return;
      }
      return None;
    }

    method HandleRequestTx(id: int, approve: bool, org: int, user: int, amount: int64) returns (error: Option<Error>)
      modifies this
      ensures Committed(old(View()), HandleRequest(old(View()), id, approve, org, user, amount), View(), error)
    {
      if id !in requests || requests[id].org != org || requests[id].claim != Pending { return Some(AlreadyHandled); }
      var before := requests;
      requests := requests[id := requests[id].(claim := if approve then Approved else Refused)];
      if approve {
        error := AddUserQuotaTx(org, user, amount, RequestOf(id));
        if error.Some? { requests := before; }
        return;
      }
      return None;
    }

    method SettleVideoTaskTx(id: int, t: Task, tokens: int64, period: int, now: int) returns (error: Option<Error>)
      modifies this
      ensures Committed(old(View()), SettleVideoTask(old(View()), id, t, tokens, period, now), View(), error)
    {
      if id !in tasks || tasks[id].billed { return Some(AlreadyBilled); }
      var before := tasks;
      tasks := tasks[id := tasks[id].(billed := true)];
      error := SettleTx(TaskLog(t, id, tokens, period, now));
      if error.Some? { tasks := before; }
    }
  }
}
