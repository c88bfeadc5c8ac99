/** The quota ledger (internal/service/quota.go, internal/api/org/handler.go,
    internal/api/platform/handler.go, internal/gateway/video.go): tables as maps and sequences,
    each transaction as one function on the database. */
module Ledger {
  import opened Words
  import opened Chunks
  import Cost

  /** Months are numbered; NO_PERIOD is the empty period of a row that was never charged. */
  const NO_PERIOD: int := -1
  const STOPPED := 0
  const ENABLED := 1
  const IN_ARREARS := 2

  /** What settlement accumulates, for an organization or a user. */
  datatype Account = Account(used: int64, monthlyCost: int64, monthlyPeriod: int)

  const NEW_ACCOUNT := Account(0, 0, NO_PERIOD)

  datatype Org = Org(limit: int64, account: Account, monthlyQuota: int64, status: int)

  /** A user without a limit is unlimited. */
  datatype User = User(org: int, limit: Option<int64>, account: Account, monthlyQuota: int64)

  datatype Subject = OrgSubject(org: int) | UserSubject(user: int)

  datatype Cause = Manual | RechargeOf(recharge: int) | RequestOf(request: int)

  datatype Grant = Grant(subject: Subject, amount: int64, cause: Cause)

  datatype Source = Chat(requestId: int) | Video(task: int)

  /** One usage_logs row: `period` is the month it was charged to, `createdAt` its time stamp. */
  datatype Log = Log(org: int, user: int, cost: int64, source: Source, period: int, createdAt: int)

  datatype Claim = Pending | Approved | Refused

  datatype Recharge = Recharge(org: int, amount: int64, claim: Claim)

  datatype Request = Request(org: int, user: int, amount: int64, claim: Claim)

  datatype Task = Task(org: int, user: int, outputPrice: int64, billed: bool)

  /** `purged` are the rows the archiver has moved out of the log table. */
  datatype Db = Db(orgs: map<int, Org>, users: map<int, User>, grants: seq<Grant>, logs: seq<Log>, purged: seq<Log>,
                   recharges: map<int, Recharge>, requests: map<int, Request>, tasks: map<int, Task>)

  datatype Error =
    | NotFound | QuotaOverflow | QuotaUnlimited | AlreadyHandled | AlreadyBilled | OutOfRange | BadAmount | Duplicate

  datatype Result = Done(db: Db) | Rejected(error: Error)

  predicate Fits(x: int) { -TWO63 <= x < TWO63 }

  /** The wrap-around test of quota.go:249-258. */
  function AddNoWrap(base: int64, amount: int64): (ok: bool)
    ensures ok <==> Fits(base + amount)
  {
    var sum := Wrap64(base + amount);
    !(amount > 0 && sum < base) && !(amount < 0 && sum > base)
  }

  // ---- Precheck ----

  datatype Verdict = Admitted | NoSuchUser | UserQuota | UserMonthly | OrgQuota | OrgMonthly

  function MonthlyCost(a: Account, period: int): int64 {
    if a.monthlyPeriod == period then a.monthlyCost else 0
  }

  function Precheck(db: Db, user: int, period: int): Verdict {
    if user !in db.users || db.users[user].org !in db.orgs then NoSuchUser
    else
      var u, o := db.users[user], db.orgs[db.users[user].org];
      if u.limit.Some? && u.account.used >= u.limit.value then UserQuota
      else if u.monthlyQuota > 0 && MonthlyCost(u.account, period) >= u.monthlyQuota then UserMonthly
      else if o.account.used >= o.limit then OrgQuota
      else if o.monthlyQuota > 0 && MonthlyCost(o.account, period) >= o.monthlyQuota then OrgMonthly
      else Admitted
  }

  // ---- Settlement ----

  /** Adds a cost to the total and to the month; the first cost of a month replaces the old one.
      None when a column would leave the 64-bit range, which aborts the transaction. */
  function Charge(a: Account, cost: int64, period: int): Option<Account> {
    var month := if a.monthlyPeriod == period then a.monthlyCost + cost else cost;
    if Fits(a.used + cost) && Fits(month) then Some(Account(a.used + cost, month, period)) else None
  }

  function ChargeUser(db: Db, l: Log): Result {
    if l.user !in db.users then Done(db)
    else
      match Charge(db.users[l.user].account, l.cost, l.period)
      case None => Rejected(OutOfRange)
      case Some(a) => Done(db.(users := db.users[l.user := db.users[l.user].(account := a)]))
  }

  function ChargeOrg(db: Db, l: Log): Result {
    if l.org !in db.orgs then Done(db)
    else
      match Charge(db.orgs[l.org].account, l.cost, l.period)
      case None => Rejected(OutOfRange)
      case Some(a) => Done(db.(orgs := db.orgs[l.org := StopIfExhausted(db.orgs[l.org].(account := a))]))
  }

  /** Only an enabled organization with a limit goes into arrears. */
  function StopIfExhausted(o: Org): Org {
    if o.status == ENABLED && o.limit > 0 && o.account.used >= o.limit then o.(status := IN_ARREARS) else o
  }

  function Settle(db: Db, l: Log): Result {
    if l.cost <= 0 then Done(db.(logs := db.logs + [l]))
    else
      match ChargeUser(db, l)
      case Rejected(e) => Rejected(e)
      case Done(db1) =>
        match ChargeOrg(db1, l)
        case Rejected(e) => Rejected(e)
        case Done(db2) => Done(db2.(logs := db2.logs + [l]))
  }

  // ---- Organization limits ----

  /** Headroom lifts arrears, and nothing else. */
  function ResumeIfFunded(o: Org): Org {
    if o.status == IN_ARREARS && o.limit > o.account.used then o.(status := ENABLED) else o
  }

  function AddOrgQuota(db: Db, org: int, amount: int64, cause: Cause): Result {
    if org !in db.orgs then Rejected(NotFound)
    else
      var o := db.orgs[org];
      if !AddNoWrap(o.limit, amount) then Rejected(QuotaOverflow)
      else Done(db.(orgs := db.orgs[org := ResumeIfFunded(o.(limit := o.limit + amount))],
                    grants := db.grants + [Grant(OrgSubject(org), amount, cause)]))
  }

  /** The difference entered in the books is computed in 64 bits, unchecked. */
  function SetOrgQuota(db: Db, org: int, limit: int64): Result {
    if limit < 0 then Rejected(QuotaOverflow)
    else if org !in db.orgs then Rejected(NotFound)
    else
      var o := db.orgs[org];
      var delta := Wrap64(limit - o.limit);
      var db' := db.(orgs := db.orgs[org := ResumeIfFunded(o.(limit := limit))]);
      if delta == 0 then Done(db')
      else Done(db'.(grants := db'.grants + [Grant(OrgSubject(org), delta, Manual)]))
  }

  /** A new organization comes with its administrator, a user without a limit. */
  function CreateOrg(db: Db, org: int, admin: int, amount: int64): Result {
    if amount < 0 then Rejected(BadAmount)
    else if org in db.orgs || admin in db.users then Rejected(Duplicate)
    else
      var db' := db.(orgs := db.orgs[org := Org(amount, NEW_ACCOUNT, 0, ENABLED)],
                     users := db.users[admin := User(org, None, NEW_ACCOUNT, 0)]);
      if amount == 0 then Done(db')
      else Done(db'.(grants := db'.grants + [Grant(OrgSubject(org), amount, Manual)]))
  }

  // ---- User limits ----

  /** A member created without an amount is unlimited. */
  function CreateMember(db: Db, user: int, org: int, amount: int64): Result {
    if amount < 0 then Rejected(BadAmount)
    else if user in db.users then Rejected(Duplicate)
    else
      var limit := if amount == 0 then None else Some(amount);
      var db' := db.(users := db.users[user := User(org, limit, NEW_ACCOUNT, 0)]);
      if amount == 0 then Done(db')
      else Done(db'.(grants := db'.grants + [Grant(UserSubject(user), amount, Manual)]))
  }

  function AddUserQuota(db: Db, org: int, user: int, amount: int64, cause: Cause): Result {
    if user !in db.users || db.users[user].org != org then Rejected(NotFound)
    else
      match db.users[user].limit
      case None => Rejected(QuotaUnlimited)
      case Some(base) =>
        if !AddNoWrap(base, amount) then Rejected(QuotaOverflow)
        else Done(db.(users := db.users[user := db.users[user].(limit := Some(base + amount))],
                      grants := db.grants + [Grant(UserSubject(user), amount, cause)]))
  }

  /** Switching to unlimited gives the whole limit back; switching to limited starts at what has
      been used. Repeating the current state does nothing. */
  function SetUserUnlimited(db: Db, org: int, user: int, unlimited: bool): Result {
    if user !in db.users || db.users[user].org != org then Rejected(NotFound)
    else
      var u := db.users[user];
      if unlimited == u.limit.None? then Done(db)
      else
        var delta := if unlimited then Wrap64(0 - u.limit.value) else u.account.used;
        var limit := if unlimited then None else Some(u.account.used);
        var db' := db.(users := db.users[user := u.(limit := limit)]);
        if delta == 0 then Done(db')
        else Done(db'.(grants := db'.grants + [Grant(UserSubject(user), delta, Manual)]))
  }

  // ---- Deletion: books and logs stay ----

  predicate RequestedBy(r: Request, users: set<int>) { r.user in users }

  /** Deleting users deletes their quota requests with them. */
  function WithoutUsers(db: Db, gone: set<int>): Db {
    db.(users := db.users - gone,
        requests := map r | r in db.requests && !RequestedBy(db.requests[r], gone) :: db.requests[r])
  }

  function DeleteMember(db: Db, org: int, user: int): Result {
    if user !in db.users || db.users[user].org != org then Rejected(NotFound)
    else Done(WithoutUsers(db, {user}))
  }

  function DeleteOrg(db: Db, org: int): Result {
    if org !in db.orgs then Rejected(NotFound)
    else
      var gone := set u | u in db.users && db.users[u].org == org;
      Done(WithoutUsers(db, gone).(orgs := db.orgs - {org}))
  }

  // ---- Claims, each handled at most once ----

  /** `amount` and `org` come from the row as read before the transaction. */
  function HandleRecharge(db: Db, id: int, approve: bool, org: int, amount: int64): Result {
    if id !in db.recharges || db.recharges[id].claim != Pending then Rejected(AlreadyHandled)
    else
      var claim := if approve then Approved else Refused;
      var claimed := db.(recharges := db.recharges[id := db.recharges[id].(claim := claim)]);
      if approve then AddOrgQuota(claimed, org, amount, RechargeOf(id)) else Done(claimed)
  }

  function HandleRequest(db: Db, id: int, approve: bool, org: int, user: int, amount: int64): Result {
    if id !in db.requests || db.requests[id].org != org || db.requests[id].claim != Pending
    then Rejected(AlreadyHandled)
    else
      var claim := if approve then Approved else Refused;
      var claimed := db.(requests := db.requests[id := db.requests[id].(claim := claim)]);
      if approve then AddUserQuota(claimed, org, user, amount, RequestOf(id)) else Done(claimed)
  }

  function TaskCost(t: Task, tokens: int64): (cost: int64)
    ensures 0 <= cost <= Cost.MAX_USAGE_POINTS
  {
    if t.org == 0 then 0 else Cost.CalcCostCached(0, 0, Cost.ClampTokens(tokens), 0, 0, t.outputPrice)
  }

  function TaskLog(t: Task, id: int, tokens: int64, period: int, now: int): Log {
    Log(t.org, t.user, TaskCost(t, tokens), Video(id), period, now)
  }

  /** `t` is the task as read before the transaction. */
  function SettleVideoTask(db: Db, id: int, t: Task, tokens: int64, period: int, now: int): Result {
    if id !in db.tasks || db.tasks[id].billed then Rejected(AlreadyBilled)
    else Settle(db.(tasks := db.tasks[id := db.tasks[id].(billed := true)]), TaskLog(t, id, tokens, period, now))
  }
}
