/** Every run of ledger transactions, starting from an empty database. Transactions are atomic, so
    an interleaving of concurrent callers is one sequence of steps. */
module LedgerRuns {
  import opened Words
  import opened Chunks
  import opened Ledger
  import opened LedgerBooks

  /** The clock gives a time stamp and the number of its month. */
  datatype World = World(db: Db, now: int, month: nat)

  datatype Step =
    | Tick(now: int, month: nat)
    | SettleChat(org: int, user: int, cost: int64, requestId: int)
    | GrantOrg(org: int, amount: int64)
    | SetOrg(org: int, limit: int64)
    | OpenOrg(org: int, admin: int, amount: int64)
    | AddMember(org: int, user: int, amount: int64)
    | GrantUser(org: int, user: int, amount: int64)
    | SwitchUser(org: int, user: int, unlimited: bool)
    | AskRecharge(id: int, org: int, amount: int64)
    | DecideRecharge(id: int, approve: bool)
    | AskQuota(id: int, org: int, user: int, amount: int64)
    | DecideQuota(id: int, org: int, approve: bool)
    | SubmitTask(id: int, org: int, user: int, outputPrice: int64)
    | FinishTask(id: int, tokens: int64)
    | SetStatus(org: int, enabled: bool)
    | SetMonthly(subject: Subject, quota: int64)
    | RemoveMember(org: int, user: int)
    | RemoveOrg(org: int)
    | MoveToArchive(start: int, end: int)

  const EMPTY := Db(map[], map[], [], [], [], map[], map[], map[])

  function Transact(w: World, step: Step): Result {
    var db := w.db;
    match step
    case Tick(_, _) => Done(db)
    case SettleChat(org, user, cost, requestId) => Settle(db, Log(org, user, cost, Chat(requestId), w.month, w.now))
    case GrantOrg(org, amount) => AddOrgQuota(db, org, amount, Manual)
    case SetOrg(org, limit) => SetOrgQuota(db, org, limit)
    case OpenOrg(org, admin, amount) => CreateOrg(db, org, admin, amount)
    case AddMember(org, user, amount) => CreateMember(db, user, org, amount)
    case GrantUser(org, user, amount) => AddUserQuota(db, org, user, amount, Manual)
    case SwitchUser(org, user, unlimited) => SetUserUnlimited(db, org, user, unlimited)
    case AskRecharge(id, org, amount) =>
      if id in db.recharges then Rejected(Duplicate)
      else Done(db.(recharges := db.recharges[id := Recharge(org, amount, Pending)]))
    case DecideRecharge(id, approve) =>
      if id !in db.recharges then Rejected(NotFound)
      else HandleRecharge(db, id, approve, db.recharges[id].org, db.recharges[id].amount)
    case AskQuota(id, org, user, amount) =>
      if id in db.requests then Rejected(Duplicate)
      else Done(db.(requests := db.requests[id := Request(org, user, amount, Pending)]))
    case DecideQuota(id, org, approve) =>
      if id !in db.requests then Rejected(NotFound)
      else HandleRequest(db, id, approve, org, db.requests[id].user, db.requests[id].amount)
    case SubmitTask(id, org, user, price) =>
      if id in db.tasks then Rejected(Duplicate)
      else Done(db.(tasks := db.tasks[id := Task(org, user, price, false)]))
    case FinishTask(id, tokens) =>
      if id !in db.tasks then Rejected(NotFound)
      else SettleVideoTask(db, id, db.tasks[id], tokens, w.month, w.now)
    case SetStatus(org, enabled) =>
      if org !in db.orgs then Rejected(NotFound)
      else Done(db.(orgs := db.orgs[org := db.orgs[org].(status := if enabled then ENABLED else STOPPED)]))
    case SetMonthly(OrgSubject(o), quota) =>
      if o !in db.orgs || quota < 0 then Rejected(NotFound)
      else Done(db.(orgs := db.orgs[o := db.orgs[o].(monthlyQuota := quota)]))
    case SetMonthly(UserSubject(u), quota) =>
      if u !in db.users || quota < 0 then Rejected(NotFound)
      else Done(db.(users := db.users[u := db.users[u].(monthlyQuota := quota)]))
    case RemoveMember(org, user) => DeleteMember(db, org, user)
    case RemoveOrg(org) => DeleteOrg(db, org)
    case MoveToArchive(start, end) => Done(Archive(db, start, end))
  }

  function After(w: World, step: Step): World {
    if step.Tick? then World(w.db, step.now, step.month)
    else
      match Transact(w, step)
      case Rejected(_) => w
      case Done(db) => w.(db := db)
  }

  /** What the program's callers and the database see to: the clock goes forward, costs are not
      negative, identifiers are never used again. And what they do not see to, which two lemmas of
      LedgerBooks show to be exactly what the books need: the difference booked fits 64 bits. */
  ghost predicate Lawful(w: World, step: Step) {
    match step
    case Tick(now, month) => w.now <= now && w.month <= month
    case SettleChat(_, _, cost, _) => 0 <= cost
    case OpenOrg(org, admin, _) =>
      (org !in w.db.orgs ==> Fresh(w.db, OrgSubject(org))) && (admin !in w.db.users ==> Fresh(w.db, UserSubject(admin)))
    case AddMember(_, user, _) => user !in w.db.users ==> Fresh(w.db, UserSubject(user))
    case AskQuota(id, _, _, _) => forall g :: g in w.db.grants ==> g.cause != RequestOf(id)
    case SetOrg(org, limit) => org in w.db.orgs ==> Fits(limit - w.db.orgs[org].limit)
    case SwitchUser(_, user, _) => user in w.db.users ==> w.db.users[user].limit != Some(-TWO63)
    case _ => true
  }

  function Run(w: World, steps: seq<Step>): World
    decreases |steps|
  {
    if steps == [] then w else Run(After(w, steps[0]), steps[1..])
  }

  ghost predicate LawfulRun(w: World, steps: seq<Step>)
    decreases |steps|
  {
    steps == [] || (Lawful(w, steps[0]) && LawfulRun(After(w, steps[0]), steps[1..]))
  }

  /** No account is in a month that has not begun. */
  ghost predicate Clocked(w: World) {
    forall s :: Exists(w.db, s) ==> NO_PERIOD <= AccountOf(w.db, s).monthlyPeriod <= w.month
  }

  ghost predicate Sound(w: World) {
    Inv(w.db) && Clocked(w)
  }

  /** All but the count of video tasks, which is open between claiming a task and logging it. */
  ghost predicate Balanced(w: World) {
    Booked(w.db) && Metered(w.db) && ArrearsJustified(w.db) && ClaimsOnce(w.db) && Clocked(w)
  }

  // ---- Claims ----

  /** One grant entered, with the claim it is for. */
  lemma GrantClaims(db: Db, db': Db, g: Grant)
    requires ClaimsOnce(db) && db'.grants == db.grants + [g]
    requires match g.cause
             case Manual => db'.recharges == db.recharges && db'.requests == db.requests
             case RechargeOf(id) =>
               && db'.requests == db.requests && id in db.recharges && db.recharges[id].claim == Pending
               && db'.recharges == db.recharges[id := db.recharges[id].(claim := Approved)]
             case RequestOf(id) =>
               && db'.recharges == db.recharges && id in db.requests && db.requests[id].claim == Pending
               && db'.requests == db.requests[id := db.requests[id].(claim := Approved)]
    ensures ClaimsOnce(db')
  {
    hide GrantCount;
    forall c: Cause ensures GrantCount(c, db'.grants) == GrantCount(c, db.grants) + if g.cause == c then 1 else 0 {
      GrantCountSnoc(c, db.grants, g);
    }
  }

  /** What every change of a limit amounts to. */
  ghost predicate Entry(db: Db, db': Db, s: Subject, delta: int64, c: Cause) {
    Entered(db, db', s, delta, c) && ArrearsJustified(db') && ClaimsOnce(db') && db'.tasks == db.tasks
  }

  lemma ManualEntry(db: Db, db': Db, s: Subject, delta: int64)
    requires ClaimsOnce(db) && Entered(db, db', s, delta, Manual) && ArrearsJustified(db')
    requires db'.recharges == db.recharges && db'.requests == db.requests && db'.tasks == db.tasks
    ensures Entry(db, db', s, delta, Manual)
  {
    hide ArrearsJustified, GrantCount;
    if db'.grants != db.grants { GrantClaims(db, db', Grant(s, delta, Manual)); }
  }

  // ---- Each transaction is an entry ----

  lemma AddOrgQuotaEntered(db: Db, org: int, amount: int64, cause: Cause)
    requires ArrearsJustified(db) && AddOrgQuota(db, org, amount, cause).Done?
    ensures var db' := AddOrgQuota(db, org, amount, cause).db;
            && Entered(db, db', OrgSubject(org), amount, cause) && ArrearsJustified(db')
            && db'.grants == db.grants + [Grant(OrgSubject(org), amount, cause)]
            && db' == db.(orgs := db'.orgs, grants := db'.grants)
  {
  }

  lemma AddUserQuotaEntered(db: Db, org: int, user: int, amount: int64, cause: Cause)
    requires AddUserQuota(db, org, user, amount, cause).Done?
    ensures var db' := AddUserQuota(db, org, user, amount, cause).db;
            && Entered(db, db', UserSubject(user), amount, cause)
            && db'.grants == db.grants + [Grant(UserSubject(user), amount, cause)]
            && db' == db.(users := db'.users, grants := db'.grants)
  {
  }

  lemma CreateOrgEntered(db: Db, org: int, admin: int, amount: int64)
    requires ArrearsJustified(db) && CreateOrg(db, org, admin, amount).Done?
    requires Fresh(db, OrgSubject(org)) && Fresh(db, UserSubject(admin))
    ensures var db' := CreateOrg(db, org, admin, amount).db;
            && Entered(db, db', OrgSubject(org), amount, Manual) && ArrearsJustified(db')
            && db' == db.(orgs := db'.orgs, users := db'.users, grants := db'.grants)
  {
    hide Fresh, ArrearsJustified;
    var db' := CreateOrg(db, org, admin, amount).db;
    NewRows(db, db', org, admin, amount);
  }

  lemma NewRows(db: Db, db': Db, org: int, admin: int, amount: int64)
    requires ArrearsJustified(db) && org !in db.orgs && admin !in db.users
    requires Fresh(db, OrgSubject(org)) && Fresh(db, UserSubject(admin))
    requires db'.orgs == db.orgs[org := Org(amount, NEW_ACCOUNT, 0, ENABLED)]
    requires db'.users == db.users[admin := User(org, None, NEW_ACCOUNT, 0)]
    requires db'.grants == if amount == 0 then db.grants else db.grants + [Grant(OrgSubject(org), amount, Manual)]
    requires db'.logs == db.logs && db'.purged == db.purged
    ensures Entered(db, db', OrgSubject(org), amount, Manual) && ArrearsJustified(db')
  {
    hide Fresh;
  }

  lemma CreateMemberEntered(db: Db, user: int, org: int, amount: int64)
    requires CreateMember(db, user, org, amount).Done? && Fresh(db, UserSubject(user))
    ensures var db' := CreateMember(db, user, org, amount).db;
            && Entered(db, db', UserSubject(user), amount, Manual)
            && db' == db.(users := db'.users, grants := db'.grants)
  {
    hide Fresh, Entered;
    NewMemberRow(db, CreateMember(db, user, org, amount).db, user, org,
                 if amount == 0 then None else Some(amount), amount);
  }

  lemma NewMemberRow(db: Db, db': Db, user: int, org: int, limit: Option<int64>, amount: int64)
    requires user !in db.users && Fresh(db, UserSubject(user))
    requires amount == (if limit.None? then 0 else limit.value)
    requires db'.users == db.users[user := User(org, limit, NEW_ACCOUNT, 0)] && db'.orgs == db.orgs
    requires db'.grants == if amount == 0 then db.grants else db.grants + [Grant(UserSubject(user), amount, Manual)]
    requires db'.logs == db.logs && db'.purged == db.purged
    ensures Entered(db, db', UserSubject(user), amount, Manual)
  {
    hide Fresh;
  }

  lemma RechargeEntry(db: Db, id: int)
    requires Inv(db) && id in db.recharges
    requires HandleRecharge(db, id, true, db.recharges[id].org, db.recharges[id].amount).Done?
    ensures var r := db.recharges[id];
            Entry(db, HandleRecharge(db, id, true, r.org, r.amount).db, OrgSubject(r.org), r.amount, RechargeOf(id))
  {
    hide Booked, Metered, ArrearsJustified, ClaimsOnce, TasksOnce, AddOrgQuota;
    var r := db.recharges[id];
    var claimed := db.(recharges := db.recharges[id := r.(claim := Approved)]);
    assert ArrearsJustified(claimed) by { SameArrears(db, claimed); }
    AddOrgQuotaEntered(claimed, r.org, r.amount, RechargeOf(id));
    var db' := AddOrgQuota(claimed, r.org, r.amount, RechargeOf(id)).db;
    GrantClaims(db, db', Grant(OrgSubject(r.org), r.amount, RechargeOf(id)));
    SameEntered(db, claimed, db', OrgSubject(r.org), r.amount, RechargeOf(id));
  }

  lemma RequestEntry(db: Db, id: int, org: int)
    requires Inv(db) && id in db.requests
    requires HandleRequest(db, id, true, org, db.requests[id].user, db.requests[id].amount).Done?
    ensures var r := db.requests[id];
            Entry(db, HandleRequest(db, id, true, org, r.user, r.amount).db,
                  UserSubject(r.user), r.amount, RequestOf(id))
  {
    hide Booked, Metered, ArrearsJustified, ClaimsOnce, TasksOnce, AddUserQuota;
    var r := db.requests[id];
    var claimed := db.(requests := db.requests[id := r.(claim := Approved)]);
    AddUserQuotaEntered(claimed, org, r.user, r.amount, RequestOf(id));
    var db' := AddUserQuota(claimed, org, r.user, r.amount, RequestOf(id)).db;
    assert ArrearsJustified(db') by { SameArrears(db, db'); }
    GrantClaims(db, db', Grant(UserSubject(r.user), r.amount, RequestOf(id)));
    SameEntered(db, claimed, db', UserSubject(r.user), r.amount, RequestOf(id));
  }

  lemma SameArrears(db: Db, db': Db)
    requires ArrearsJustified(db) && db'.orgs == db.orgs
    ensures ArrearsJustified(db')
  {
  }

  /** The side tables do not matter to an entry. */
  lemma SameEntered(db: Db, side: Db, db': Db, s: Subject, delta: int64, c: Cause)
    requires Entered(side, db', s, delta, c)
    requires side.orgs == db.orgs && side.users == db.users && side.grants == db.grants
    requires side.logs == db.logs && side.purged == db.purged
    ensures Entered(db, db', s, delta, c)
  {
    assert forall t :: Exists(side, t) <==> Exists(db, t);
    assert forall t :: Exists(db, t) ==> AccountOf(side, t) == AccountOf(db, t) && LimitOf(side, t) == LimitOf(db, t);
  }

  // ---- One step ----

  lemma EntrySound(w: World, db': Db, s: Subject, delta: int64, c: Cause)
    requires Sound(w) && Entry(w.db, db', s, delta, c)
    ensures Sound(w.(db := db'))
  {
    hide Booked, Metered, ArrearsJustified, ClaimsOnce, LogCount;
    EnteredBooked(w.db, db', s, delta, c);
    EnteredMetered(w.db, db', s, delta, c);
    assert TasksOnce(db');
  }

  /** Steps that touch neither accounts nor limits nor logs. */
  lemma SideBalanced(w: World, w': World)
    requires Balanced(w) && w.month <= w'.month
    requires w'.db.grants == w.db.grants && w'.db.logs == w.db.logs && w'.db.purged == w.db.purged
    requires w'.db.users.Keys <= w.db.users.Keys && w'.db.orgs.Keys <= w.db.orgs.Keys
    requires forall u :: u in w'.db.users ==>
      w'.db.users[u].limit == w.db.users[u].limit && w'.db.users[u].account == w.db.users[u].account
    requires forall o :: o in w'.db.orgs ==>
      w'.db.orgs[o].limit == w.db.orgs[o].limit && w'.db.orgs[o].account == w.db.orgs[o].account
    requires ArrearsJustified(w'.db) && ClaimsOnce(w'.db)
    ensures Balanced(w')
  {
    hide ArrearsJustified, ClaimsOnce, Booked, Metered;
    SameLimitsBooked(w.db, w'.db);
    SameAccountsMetered(w.db, w'.db);
  }

  lemma SettleBalanced(w: World, l: Log)
    requires Balanced(w) && Settle(w.db, l).Done? && l.period == w.month
    requires 0 <= l.cost
    ensures Balanced(w.(db := Settle(w.db, l).db))
  {
    hide Booked, Metered, ArrearsJustified, Settle, GrantCount;
    assert InOrder(w.db, l);
    SettleInv(w.db, l);
    SettleKeepsRest(w.db, l);
    SettleClocked(w, l);
  }

  lemma SettleClocked(w: World, l: Log)
    requires Clocked(w) && Settle(w.db, l).Done? && l.period == w.month
    ensures Clocked(w.(db := Settle(w.db, l).db))
  {
    var db' := Settle(w.db, l).db;
    forall s | Exists(db', s) ensures NO_PERIOD <= AccountOf(db', s).monthlyPeriod <= w.month {
      assert Exists(w.db, s);
    }
  }

  lemma LoggedTasks(db: Db, db': Db, l: Log)
    requires TasksOnce(db) && db'.logs == db.logs + [l] && db'.purged == db.purged
    requires match l.source
             case Chat(_) => db'.tasks == db.tasks
             case Video(id) =>
               && id in db.tasks && !db.tasks[id].billed
               && db'.tasks == db.tasks[id := db.tasks[id].(billed := true)]
    ensures TasksOnce(db')
  {
    hide LogCount;
    forall t
      ensures LogCount(Video(t), db'.logs) == LogCount(Video(t), db.logs) + if l.source == Video(t) then 1 else 0 {
      LogCountSnoc(Video(t), db.logs, l);
    }
  }

  lemma SettleChatSound(w: World, step: Step)
    requires Sound(w) && step.SettleChat? && Lawful(w, step)
    ensures Sound(After(w, step))
  {
    hide Booked, Metered, ArrearsJustified, ClaimsOnce, TasksOnce, Clocked, Settle;
    var l := Log(step.org, step.user, step.cost, Chat(step.requestId), w.month, w.now);
    if Settle(w.db, l).Done? {
      SettleBalanced(w, l);
      SettleKeepsRest(w.db, l);
      LoggedTasks(w.db, Settle(w.db, l).db, l);
    }
  }

  lemma FinishTaskSound(w: World, step: Step)
    requires Sound(w) && step.FinishTask?
    ensures Sound(After(w, step))
  {
    hide Booked, Metered, ArrearsJustified, ClaimsOnce, Clocked, Settle, LogCount;
    var id := step.id;
    if Transact(w, step).Done? {
      var t := w.db.tasks[id];
      var l := TaskLog(t, id, step.tokens, w.month, w.now);
      var claimed := w.(db := w.db.(tasks := w.db.tasks[id := t.(billed := true)]));
      assert ArrearsJustified(claimed.db) by { SameArrears(w.db, claimed.db); }
      assert ClaimsOnce(claimed.db) by { SameClaims(w.db, claimed.db); }
      SideBalanced(w, claimed);
      SettleBalanced(claimed, l);
      SettleKeepsRest(claimed.db, l);
      LoggedTasks(w.db, Settle(claimed.db, l).db, l);
    }
  }

  lemma SameClaims(db: Db, db': Db)
    requires ClaimsOnce(db) && db'.grants == db.grants
    requires forall r ::
      (r in db'.recharges && db'.recharges[r].claim == Approved)
      <==> (r in db.recharges && db.recharges[r].claim == Approved)
    requires forall r :: r in db'.requests ==>
        r in db.requests && (db'.requests[r].claim == Approved <==> db.requests[r].claim == Approved)
    ensures ClaimsOnce(db')
  {
  }

  lemma AskedClaims(db: Db, db': Db, id: int, r: Request)
    requires ClaimsOnce(db) && db'.grants == db.grants && db'.recharges == db.recharges
    requires id !in db.requests && db'.requests == db.requests[id := r] && r.claim == Pending
    requires forall g :: g in db.grants ==> g.cause != RequestOf(id)
    ensures ClaimsOnce(db')
  {
    NoGrants(RequestOf(id), db.grants);
  }

  lemma {:induction false} NoGrants(c: Cause, grants: seq<Grant>)
    requires forall g :: g in grants ==> g.cause != c
    ensures GrantCount(c, grants) == 0
  {
    if grants != [] { NoGrants(c, grants[..|grants| - 1]); }
  }

  lemma LimitStepSound(w: World, step: Step)
    requires Sound(w) && Lawful(w, step)
    requires step.GrantOrg? || step.SetOrg? || step.OpenOrg?
    ensures Sound(After(w, step))
  {
    hide Booked, Metered, ClaimsOnce, TasksOnce, Clocked, Entered, Entry;
    if Transact(w, step).Done? {
      var db, db' := w.db, Transact(w, step).db;
      var s, delta := OrgSubject(step.org), 0;
      match step {
        case GrantOrg(org, amount) => AddOrgQuotaEntered(db, org, amount, Manual); delta := amount;
        case SetOrg(org, limit) => SetOrgQuotaEntered(db, org, limit); delta := limit - db.orgs[org].limit;
        case OpenOrg(org, admin, amount) => CreateOrgEntered(db, org, admin, amount); delta := amount;
      }
      ManualEntry(db, db', s, delta);
      EntrySound(w, db', s, delta, Manual);
    }
  }

  lemma UserLimitStepSound(w: World, step: Step)
    requires Sound(w) && Lawful(w, step)
    requires step.AddMember? || step.GrantUser? || step.SwitchUser?
    ensures Sound(After(w, step))
  {
    hide Booked, Metered, ClaimsOnce, TasksOnce, Clocked, Entered, Entry, ArrearsJustified;
    if Transact(w, step).Done? && Transact(w, step).db != w.db {
      var db, db' := w.db, Transact(w, step).db;
      var s, delta := UserSubject(step.user), 0;
      match step {
        case AddMember(org, user, amount) => CreateMemberEntered(db, user, org, amount); delta := amount;
        case GrantUser(org, user, amount) => AddUserQuotaEntered(db, org, user, amount, Manual); delta := amount;
        case SwitchUser(org, user, unlimited) =>
          SetUserUnlimitedEntered(db, org, user, unlimited);
          delta := SwitchDelta(db.users[user]);
      }
      SameArrears(db, db');
      ManualEntry(db, db', s, delta);
      EntrySound(w, db', s, delta, Manual);
    }
  }

  lemma DecisionSound(w: World, step: Step)
    requires Sound(w) && (step.DecideRecharge? || step.DecideQuota?)
    ensures Sound(After(w, step))
  {
    hide Booked, Metered, ClaimsOnce, TasksOnce, Clocked, Entered, Entry, ArrearsJustified;
    if Transact(w, step).Done? {
      var db, db' := w.db, Transact(w, step).db;
      if step.approve && step.DecideRecharge? {
        RechargeEntry(db, step.id);
        EntrySound(w, db', OrgSubject(db.recharges[step.id].org), db.recharges[step.id].amount, RechargeOf(step.id));
      } else if step.approve {
        RequestEntry(db, step.id, step.org);
        EntrySound(w, db', UserSubject(db.requests[step.id].user), db.requests[step.id].amount, RequestOf(step.id));
      } else {
        SameArrears(db, db');
        SameClaims(db, db');
        SideBalanced(w, After(w, step));
        SameTasks(db, db');
      }
    }
  }

  lemma SameTasks(db: Db, db': Db)
    requires TasksOnce(db) && db'.logs == db.logs && db'.purged == db.purged && db'.tasks == db.tasks
    ensures TasksOnce(db')
  {
  }

  predicate Aside(step: Step) {
    step.Tick? || step.AskRecharge? || step.AskQuota? || step.SubmitTask? || step.SetStatus? || step.SetMonthly?
  }

  lemma AsideArrears(w: World, step: Step)
    requires ArrearsJustified(w.db) && Aside(step)
    ensures ArrearsJustified(After(w, step).db)
  {
    hide Settle, SettleVideoTask, AddOrgQuota, SetOrgQuota, CreateOrg, CreateMember, AddUserQuota, SetUserUnlimited;
    hide HandleRecharge, HandleRequest, DeleteMember, DeleteOrg, Archive;
  }

  lemma AsideTasks(w: World, step: Step)
    requires TasksOnce(w.db) && Aside(step)
    ensures TasksOnce(After(w, step).db)
  {
    hide LogCount;
  }

  predicate SameLimits(db: Db, db': Db) {
    && db'.grants == db.grants && db'.logs == db.logs && db'.purged == db.purged
    && db'.orgs.Keys <= db.orgs.Keys && db'.users.Keys <= db.users.Keys
    && (forall o :: o in db'.orgs ==>
          db'.orgs[o].limit == db.orgs[o].limit && db'.orgs[o].account == db.orgs[o].account)
    && (forall u :: u in db'.users ==>
          db'.users[u].limit == db.users[u].limit && db'.users[u].account == db.users[u].account)
  }

  lemma SwitchKeeps(w: World, step: Step)
    requires step.SetStatus? || step.SetMonthly?
    ensures SameLimits(w.db, After(w, step).db)
  {
  }

  /** Nothing but switches, filings and the clock. */
  lemma AsideKeeps(w: World, step: Step)
    requires Aside(step)
    ensures SameLimits(w.db, After(w, step).db)
  {
    if step.SetStatus? || step.SetMonthly? {
      SwitchKeeps(w, step);
    } else {
      assert After(w, step).db.orgs == w.db.orgs && After(w, step).db.users == w.db.users;
    }
  }

  /** Filing, submitting, the clock, the administrator's switch. */
  lemma SideStepSound(w: World, step: Step)
    requires Sound(w) && Lawful(w, step) && Aside(step)
    ensures Sound(After(w, step))
  {
    hide Booked, Metered, ClaimsOnce, LogCount, GrantCount, ArrearsJustified, TasksOnce;
    var w' := After(w, step);
    AsideArrears(w, step);
    AsideTasks(w, step);
    AsideKeeps(w, step);
    if step.AskQuota? && Transact(w, step).Done? {
      AskedClaims(w.db, w'.db, step.id, Request(step.org, step.user, step.amount, Pending));
    } else {
      SameClaims(w.db, w'.db);
    }
    SideBalanced(w, w');
  }

  lemma RemovalSound(w: World, step: Step)
    requires Sound(w) && (step.RemoveMember? || step.RemoveOrg?)
    ensures Sound(After(w, step))
  {
    hide Booked, Metered, ClaimsOnce, LogCount;
    var w' := After(w, step);
    SameClaims(w.db, w'.db);
    SideBalanced(w, w');
    SameTasks(w.db, w'.db);
  }

  lemma StepSound(w: World, step: Step)
    requires Sound(w) && Lawful(w, step)
    ensures Sound(After(w, step))
  {
    hide Sound, After, Transact, Lawful;
    if step.SettleChat? { SettleChatSound(w, step); }
    else if step.FinishTask? { FinishTaskSound(w, step); }
    else if step.GrantOrg? || step.SetOrg? || step.OpenOrg? { LimitStepSound(w, step); }
    else if step.AddMember? || step.GrantUser? || step.SwitchUser? { UserLimitStepSound(w, step); }
    else if step.DecideRecharge? || step.DecideQuota? { DecisionSound(w, step); }
    else if step.MoveToArchive? { ArchiveStepSound(w, step); }
    else if step.RemoveMember? || step.RemoveOrg? { RemovalSound(w, step); }
    else { SideStepSound(w, step); }
  }

  lemma ArchiveStepSound(w: World, step: Step)
    requires Sound(w) && step.MoveToArchive?
    ensures Sound(After(w, step))
  {
    hide Inv;
    ArchiveInv(w.db, step.start, step.end);
    var db' := Archive(w.db, step.start, step.end);
    assert forall s :: Exists(db', s) ==> Exists(w.db, s) && AccountOf(db', s) == AccountOf(w.db, s);
  }

  // ---- What a step does to the log ----

  /** A settlement logs one row, charged to this month and stamped now. */
  lemma SettlementLogs(w: World, step: Step)
    requires (step.SettleChat? || step.FinishTask?) && Transact(w, step).Done?
    ensures var db' := Transact(w, step).db;
            && db'.purged == w.db.purged
            && exists l :: db'.logs == w.db.logs + [l] && l.createdAt == w.now && l.period == w.month
  {
    hide Settle;
    if step.SettleChat? {
      SettleKeepsRest(w.db, Log(step.org, step.user, step.cost, Chat(step.requestId), w.month, w.now));
    } else {
      var t := w.db.tasks[step.id];
      SettleKeepsRest(w.db.(tasks := w.db.tasks[step.id := t.(billed := true)]),
                      TaskLog(t, step.id, step.tokens, w.month, w.now));
    }
  }

  lemma OthersLogNothing(w: World, step: Step)
    requires !step.SettleChat? && !step.FinishTask? && !step.MoveToArchive? && Transact(w, step).Done?
    ensures Transact(w, step).db.logs == w.db.logs && Transact(w, step).db.purged == w.db.purged
  {
    hide Settle, Part;
  }

  /** The log table after a step: the same, one more row of this month stamped now, or archived. */
  lemma LogEffect(w: World, step: Step)
    ensures var w' := After(w, step);
            || (w'.db.logs == w.db.logs && w'.db.purged == w.db.purged)
            || (exists l :: && w'.db.logs == w.db.logs + [l] && w'.db.purged == w.db.purged
                            && l.createdAt == w.now && l.period == w.month)
            || (step.MoveToArchive? && w'.db == Archive(w.db, step.start, step.end))
    ensures Lawful(w, step) ==> w.now <= After(w, step).now
  {
    if !step.Tick? && !step.MoveToArchive? && Transact(w, step).Done? {
      hide Transact, Archive;
      if step.SettleChat? || step.FinishTask? { SettlementLogs(w, step); } else { OthersLogNothing(w, step); }
    }
  }

  // ---- All runs ----

  lemma {:induction false} RunSound(w: World, steps: seq<Step>)
    requires Sound(w) && LawfulRun(w, steps)
    ensures Sound(Run(w, steps))
    decreases |steps|
  {
    hide Sound;
    if steps != [] {
      StepSound(w, steps[0]);
      RunSound(After(w, steps[0]), steps[1..]);
    }
  }

  lemma EmptySound(now: int, month: nat)
    ensures Sound(World(EMPTY, now, month))
  {
  }

  /** From an empty database on, after any number of transactions of any callers: every limit is
      the sum of its grants, every account is the sum of its logged costs and its month's, arrears
      mean an exhausted limit, and approved claims and billed tasks have moved the ledger once. */
  lemma LedgerSafe(steps: seq<Step>, now: int, month: nat)
    requires LawfulRun(World(EMPTY, now, month), steps)
    ensures var db := Run(World(EMPTY, now, month), steps).db;
            && (forall o :: o in db.orgs ==> Granted(OrgSubject(o), db.grants) == db.orgs[o].limit)
            && (forall u :: u in db.users ==>
                  Granted(UserSubject(u), db.grants) == if db.users[u].limit.None? then 0 else db.users[u].limit.value)
            && (forall o :: o in db.orgs ==>
                  var a := db.orgs[o].account;
                  a.used == Total(All(OrgSubject(o)), db)
                  && a.monthlyCost == Total(InMonth(OrgSubject(o), a.monthlyPeriod), db))
            && (forall u :: u in db.users ==>
                  var a := db.users[u].account;
                  a.used == Total(All(UserSubject(u)), db)
                  && a.monthlyCost == Total(InMonth(UserSubject(u), a.monthlyPeriod), db))
            && (forall o :: o in db.orgs && db.orgs[o].status == IN_ARREARS ==>
                  db.orgs[o].account.used >= db.orgs[o].limit)
            && (forall r :: GrantCount(RechargeOf(r), db.grants) <= 1 && GrantCount(RequestOf(r), db.grants) <= 1)
            && (forall t :: LogCount(Video(t), db.logs) + LogCount(Video(t), db.purged) <= 1)
  {
    EmptySound(now, month);
    RunSound(World(EMPTY, now, month), steps);
    var db := Run(World(EMPTY, now, month), steps).db;
    assert forall o :: o in db.orgs ==> Exists(db, OrgSubject(o));
    assert forall u :: u in db.users ==> Exists(db, UserSubject(u));
  }

  predicate Under(limit: int, spent: int) { limit <= 0 || spent < limit }

  /** In every reachable state admission is granted exactly to a user whose own limits and whose
      organization's, total and monthly, are above what the log says was spent. */
  lemma AdmittedIffWithinBudget(w: World, user: int)
    requires Sound(w)
    ensures Precheck(w.db, user, w.month) == Admitted <==>
            && user in w.db.users && w.db.users[user].org in w.db.orgs
            && (var u, org := w.db.users[user], w.db.users[user].org;
                var o := w.db.orgs[org];
                && (u.limit.Some? ==> Total(All(UserSubject(user)), w.db) < u.limit.value)
                && Under(u.monthlyQuota, Total(InMonth(UserSubject(user), w.month), w.db))
                && Total(All(OrgSubject(org)), w.db) < o.limit
                && Under(o.monthlyQuota, Total(InMonth(OrgSubject(org), w.month), w.db)))
  {
    hide Sum;
    if user in w.db.users && w.db.users[user].org in w.db.orgs {
      var s, t := UserSubject(user), OrgSubject(w.db.users[user].org);
      assert Exists(w.db, s) && Exists(w.db, t);
      MonthlyCostExact(w.db, s, w.month);
      MonthlyCostExact(w.db, t, w.month);
    }
  }

  /** A stopped organization stays stopped until an administrator starts or deletes it. */
  lemma {:induction false} StoppedStays(w: World, steps: seq<Step>, org: int)
    requires org in w.db.orgs && w.db.orgs[org].status == STOPPED
    requires forall i :: 0 <= i < |steps| ==> !((steps[i].SetStatus? || steps[i].RemoveOrg?) && steps[i].org == org)
    ensures org in Run(w, steps).db.orgs && Run(w, steps).db.orgs[org].status == STOPPED
    decreases |steps|
  {
    if steps != [] {
      StepKeepsStopped(w, steps[0], org);
      StoppedStays(After(w, steps[0]), steps[1..], org);
    }
  }

  lemma StepKeepsStopped(w: World, step: Step, org: int)
    requires org in w.db.orgs && w.db.orgs[org].status == STOPPED
    requires !((step.SetStatus? || step.RemoveOrg?) && step.org == org)
    ensures org in After(w, step).db.orgs && After(w, step).db.orgs[org].status == STOPPED
  {
    if !step.Tick? && Transact(w, step).Done? {
      hide Transact;
      if step.SettleChat? || step.FinishTask? { SettlementKeepsStopped(w, step, org); }
      else if Aside(step) { AsideKeepsStopped(w, step, org); }
      else { OtherKeepsStopped(w, step, org); }
    }
  }

  lemma AsideKeepsStopped(w: World, step: Step, org: int)
    requires org in w.db.orgs && w.db.orgs[org].status == STOPPED && Transact(w, step).Done?
    requires Aside(step) && !(step.SetStatus? && step.org == org)
    ensures var db' := Transact(w, step).db; org in db'.orgs && db'.orgs[org].status == STOPPED
  {
  }

  lemma OtherKeepsStopped(w: World, step: Step, org: int)
    requires org in w.db.orgs && w.db.orgs[org].status == STOPPED && Transact(w, step).Done?
    requires !step.SettleChat? && !step.FinishTask? && !Aside(step) && !(step.RemoveOrg? && step.org == org)
    ensures var db' := Transact(w, step).db; org in db'.orgs && db'.orgs[org].status == STOPPED
  {
    hide Settle, Part;
  }

  lemma SettlementKeepsStopped(w: World, step: Step, org: int)
    requires org in w.db.orgs && w.db.orgs[org].status == STOPPED
    requires (step.SettleChat? || step.FinishTask?) && Transact(w, step).Done?
    ensures var db' := Transact(w, step).db; org in db'.orgs && db'.orgs[org].status == STOPPED
  {
    hide Settle;
    if step.SettleChat? {
      SettleKeepsRest(w.db, Log(step.org, step.user, step.cost, Chat(step.requestId), w.month, w.now));
    } else {
      var t := w.db.tasks[step.id];
      SettleKeepsRest(w.db.(tasks := w.db.tasks[step.id := t.(billed := true)]),
                      TaskLog(t, step.id, step.tokens, w.month, w.now));
    }
  }

  /** A negative limit followed by a huge one: the difference wraps, and the books are off by the
      whole range of a word. */
  lemma HugeLimitLosesTheBooks(now: int, month: nat)
    ensures var w := World(EMPTY, now, month);
            var steps := [OpenOrg(1, 1, 0), GrantOrg(1, -5), SetOrg(1, TWO63 - 1)];
            var db := Run(w, steps).db;
            1 in db.orgs && db.orgs[1].limit == TWO63 - 1
                && Granted(OrgSubject(1), db.grants) == db.orgs[1].limit - TWO64
  {
    var w := World(EMPTY, now, month);
    var w1 := After(w, OpenOrg(1, 1, 0));
    var w2 := After(w1, GrantOrg(1, -5));
    var w3 := After(w2, SetOrg(1, TWO63 - 1));
    var g1, g2 := Grant(OrgSubject(1), -5, Manual), Grant(OrgSubject(1), Wrap64(TWO63 - 1 + 5), Manual);
    assert w3.db.grants == [] + [g1] + [g2];
    GrantedSnoc(OrgSubject(1), [], g1);
    GrantedSnoc(OrgSubject(1), [] + [g1], g2);
    var steps := [OpenOrg(1, 1, 0), GrantOrg(1, -5), SetOrg(1, TWO63 - 1)];
    assert steps[1..] == [GrantOrg(1, -5), SetOrg(1, TWO63 - 1)];
    assert steps[1..][1..] == [SetOrg(1, TWO63 - 1)];
    assert steps[1..][1..][1..] == [];
    assert Run(w, steps) == Run(w1, steps[1..]) == Run(w2, steps[1..][1..]) == Run(w3, []) == w3;
  }
}
