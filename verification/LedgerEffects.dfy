/** What single transactions do, and what a run of them cannot undo: who is unlimited, who is stopped,
    which claims are decided, what a video task costs. */
module LedgerEffects {
  import opened Words
  import opened Chunks
  import opened Ledger
  import opened LedgerBooks
  import opened LedgerRuns

  // ---- Which transactions succeed ----

  predicate ChargeFits(a: Account, cost: int, month: int) {
    && Fits(a.used + cost)
    && Fits(cost + if a.monthlyPeriod == month then a.monthlyCost else 0)
  }

  /** A settlement succeeds if it costs nothing or every figure it raises stays within 64 bits. */
  predicate SettlementFits(w: World, org: int, user: int, cost: int) {
    cost <= 0 || (
      && (user in w.db.users ==> ChargeFits(w.db.users[user].account, cost, w.month))
      && (org in w.db.orgs ==> ChargeFits(w.db.orgs[org].account, cost, w.month)))
  }

  lemma SettleAccepted(db: Db, l: Log, w: World)
    requires w.db.users == db.users && w.db.orgs == db.orgs && l.period == w.month
    ensures Settle(db, l).Done? <==> SettlementFits(w, l.org, l.user, l.cost)
  {
  }

  /** What a transaction on a limit asks of the database. */
  lemma LimitAccepted(w: World, step: Step)
    ensures var db := w.db;
            match step
            case GrantOrg(org, amount) =>
              Transact(w, step).Done? <==> org in db.orgs && Fits(db.orgs[org].limit + amount)
            case SetOrg(org, limit) => Transact(w, step).Done? <==> limit >= 0 && org in db.orgs
            case OpenOrg(org, admin, amount) =>
              Transact(w, step).Done? <==> amount >= 0 && org !in db.orgs && admin !in db.users
            case AddMember(org, user, amount) => Transact(w, step).Done? <==> amount >= 0 && user !in db.users
            case GrantUser(org, user, amount) => Transact(w, step).Done? <==> UserGrantable(db, org, user, amount)
            case SwitchUser(org, user, _) => Transact(w, step).Done? <==> user in db.users && db.users[user].org == org
            case RemoveMember(org, user) => Transact(w, step).Done? <==> user in db.users && db.users[user].org == org
            case RemoveOrg(org) => Transact(w, step).Done? <==> org in db.orgs
            case _ => true
  {
  }

  predicate UserGrantable(db: Db, org: int, user: int, amount: int) {
    && user in db.users && db.users[user].org == org
    && db.users[user].limit.Some? && Fits(db.users[user].limit.value + amount)
  }

  /** A claim is decided exactly if it is there and pending and, to be approved, its grant is possible;
      a task settles exactly once, if its cost fits. */
  lemma ClaimAccepted(w: World, step: Step)
    ensures var db := w.db;
            match step
            case DecideRecharge(id, approve) =>
              Transact(w, step).Done? <==>
              && id in db.recharges && db.recharges[id].claim == Pending
              && (approve ==> var r := db.recharges[id];
                              r.org in db.orgs && Fits(db.orgs[r.org].limit + r.amount))
            case DecideQuota(id, org, approve) =>
              Transact(w, step).Done? <==>
              && id in db.requests && db.requests[id].claim == Pending && db.requests[id].org == org
              && (approve ==> UserGrantable(db, org, db.requests[id].user, db.requests[id].amount))
            case _ => true
  {
  }

  lemma TaskAccepted(w: World, id: int, tokens: int64)
    ensures Transact(w, FinishTask(id, tokens)).Done? <==>
            && id in w.db.tasks && !w.db.tasks[id].billed
            && SettlementFits(w, w.db.tasks[id].org, w.db.tasks[id].user, TaskCost(w.db.tasks[id], tokens))
  {
    hide Settle, SettlementFits;
    if id in w.db.tasks {
      var t := w.db.tasks[id];
      SettleAccepted(w.db.(tasks := w.db.tasks[id := t.(billed := true)]), TaskLog(t, id, tokens, w.month, w.now), w);
    }
  }

  /** A change of a limit is entered once, with its amount, and not at all when it changes nothing. */
  lemma GrantEntered(w: World, step: Step)
    requires Transact(w, step).Done?
    ensures var db, db' := w.db, Transact(w, step).db;
            match step
            case GrantOrg(org, amount) => db'.grants == db.grants + [Grant(OrgSubject(org), amount, Manual)]
            case SetOrg(org, limit) =>
              Fits(limit - db.orgs[org].limit) ==>
                db'.grants == Booking(db.grants, OrgSubject(org), limit - db.orgs[org].limit)
            case OpenOrg(org, _, amount) => db'.grants == Booking(db.grants, OrgSubject(org), amount)
            case AddMember(_, user, amount) => db'.grants == Booking(db.grants, UserSubject(user), amount)
            case GrantUser(_, user, amount) => db'.grants == db.grants + [Grant(UserSubject(user), amount, Manual)]
            case SwitchUser(_, user, unlimited) =>
              var u := db.users[user];
              if unlimited == u.limit.None? then db'.grants == db.grants
              else
                var delta := if unlimited then 0 - u.limit.value else u.account.used;
                Fits(delta) ==> db'.grants == Booking(db.grants, UserSubject(user), delta)
            case _ => true
  {
  }

  function Booking(grants: seq<Grant>, s: Subject, amount: int64): seq<Grant> {
    if amount == 0 then grants else grants + [Grant(s, amount, Manual)]
  }

  /** Removing a member, or an organization with all its users, takes their requests along and leaves
      everything else. */
  lemma RemovalExact(w: World, step: Step)
    requires (step.RemoveMember? || step.RemoveOrg?) && Transact(w, step).Done?
    ensures var db, db' := w.db, Transact(w, step).db;
            && db' == db.(orgs := db'.orgs, users := db'.users, requests := db'.requests)
            && (forall o :: o in db'.orgs <==> o in db.orgs && !(step.RemoveOrg? && step.org == o))
            && (forall u :: u in db'.users <==> u in db.users && !Removes(step, u, db.users[u].org))
            && (forall r :: r in db'.requests <==>
                  r in db.requests && (db.requests[r].user in db.users ==> db.requests[r].user in db'.users))
            && (forall o :: o in db'.orgs ==> db'.orgs[o] == db.orgs[o])
            && (forall u :: u in db'.users ==> db'.users[u] == db.users[u])
            && (forall r :: r in db'.requests ==> db'.requests[r] == db.requests[r])
  {
  }

  predicate Removes(step: Step, user: int, org: int) {
    match step
    case RemoveMember(_, u) => u == user
    case RemoveOrg(o) => o == org
    case _ => false
  }

  // ---- Limits of users ----

  /** The step grants this user something, by hand or by approving a request. */
  predicate Grants(w: World, step: Step, user: int) {
    match step
    case GrantUser(_, u, _) => u == user
    case DecideQuota(id, _, approve) => approve && id in w.db.requests && w.db.requests[id].user == user
    case _ => false
  }

  /** Only the switch changes whether a user is unlimited: on, the user has no limit; off, a user without
      one is limited to what has been used. A grant raises a limit there is. Nothing else touches it. */
  lemma UserLimitAfter(w: World, step: Step, user: int)
    requires user in w.db.users && user in After(w, step).db.users
    ensures var u, u' := w.db.users[user], After(w, step).db.users[user];
            && u'.org == u.org
            && (step == SwitchUser(u.org, user, true) ==> u'.limit == None)
            && (step == SwitchUser(u.org, user, false) ==>
                  u'.limit == if u.limit.None? then Some(u.account.used) else u.limit)
            && (step.GrantUser? && step.user == user && step.org == u.org && u.limit.Some? ==>
                  u'.limit == if Fits(u.limit.value + step.amount) then Some(u.limit.value + step.amount) else u.limit)
            && (u'.limit == u.limit
                || (step.SwitchUser? && step.user == user && step.org == u.org)
                || (Grants(w, step, user) && u.limit.Some? && u'.limit.Some?))
  {
    hide Settle, Part, AddOrgQuota, SetOrgQuota, CreateOrg, CreateMember, WithoutUsers;
    if step.Tick? || Transact(w, step).Rejected? {
      if step.GrantUser? && step.user == user && step.org == w.db.users[user].org { GrantRefused(w, step); }
    } else {
      if step.SettleChat? || step.FinishTask? { hide Transact; SettlementKeepsUser(w, step, user); }
      else if step.SwitchUser? {}
      else if step.GrantUser? || step.DecideQuota? { hide Transact; GrantRaises(w, step, user); }
      else { hide Transact; OthersKeepUser(w, step, user); }
    }
  }

  lemma SettlementKeepsUser(w: World, step: Step, user: int)
    requires user in w.db.users && (step.SettleChat? || step.FinishTask?) && Transact(w, step).Done?
    ensures var db' := Transact(w, step).db;
            user in db'.users && db'.users[user] == w.db.users[user].(account := db'.users[user].account)
  {
    hide Settle;
    if step.SettleChat? {
      SettleKeepsRest(w.db, Log(step.org, step.user, step.cost, Chat(step.requestId), w.month, w.now));
    } else {
      var t := w.db.tasks[step.id];
      SettleKeepsRest(w.db.(tasks := w.db.tasks[step.id := t.(billed := true)]),
                      TaskLog(t, step.id, step.tokens, w.month, w.now));
    }
  }

  lemma GrantRaises(w: World, step: Step, user: int)
    requires user in w.db.users && (step.GrantUser? || step.DecideQuota?) && Transact(w, step).Done?
    ensures var db' := Transact(w, step).db;
            && user in db'.users && db'.users[user].org == w.db.users[user].org
            && var before, after := w.db.users[user].limit, db'.users[user].limit;
               && (before != after ==> Grants(w, step, user) && before.Some? && after.Some?)
               && (step.GrantUser? && step.user == user ==>
                     step.org == w.db.users[user].org && before.Some? && Fits(before.value + step.amount)
                     && after == Some(before.value + step.amount))
  {
  }

  lemma GrantRefused(w: World, step: Step)
    requires step.GrantUser? && Transact(w, step).Rejected?
    requires step.user in w.db.users && w.db.users[step.user].org == step.org
    ensures w.db.users[step.user].limit.Some? ==> !Fits(w.db.users[step.user].limit.value + step.amount)
  {
  }

  lemma OthersKeepUser(w: World, step: Step, user: int)
    requires user in w.db.users && Transact(w, step).Done? && user in Transact(w, step).db.users
    requires !step.SettleChat? && !step.FinishTask? && !step.SwitchUser? && !step.GrantUser? && !step.DecideQuota?
    ensures var u, u' := w.db.users[user], Transact(w, step).db.users[user]; u'.org == u.org && u'.limit == u.limit
  {
    hide Settle, Part;
  }

  /** A user comes as a member, limited to the amount given if there is one, or as the administrator of a
      new organization, unlimited. */
  lemma NewUserLimit(w: World, step: Step, user: int)
    requires user !in w.db.users && user in After(w, step).db.users
    ensures var u := After(w, step).db.users[user];
            && u.account.used == 0
            && ((step == AddMember(u.org, user, 0) && u.limit == None)
                || (step.AddMember? && step.user == user && step.amount > 0 && u.limit == Some(step.amount))
                || (step.OpenOrg? && step.admin == user && step.org == u.org && u.limit == None))
  {
    hide Settle, Part;
    if step.OpenOrg? || step.AddMember? {
      hide AddOrgQuota, SetOrgQuota, AddUserQuota, SetUserUnlimited, HandleRecharge, HandleRequest, SettleVideoTask;
      hide DeleteMember, DeleteOrg, Archive;
    } else {
      hide After;
      if step.SettleChat? || step.FinishTask? { SettlementAddsNobody(w, step); } else { OthersAddNobody(w, step); }
    }
  }

  lemma OthersAddNobody(w: World, step: Step)
    requires !step.SettleChat? && !step.FinishTask? && !step.OpenOrg? && !step.AddMember?
    ensures After(w, step).db.users.Keys <= w.db.users.Keys
  {
    if Aside(step) {
      hide After;
      AsideKeeps(w, step);
    } else {
      hide Settle, SettleVideoTask, CreateOrg, CreateMember, Part;
    }
  }

  lemma SettlementAddsNobody(w: World, step: Step)
    requires step.SettleChat? || step.FinishTask?
    ensures After(w, step).db.users.Keys == w.db.users.Keys
  {
    hide Settle;
    if Transact(w, step).Done? {
      if step.SettleChat? {
        SettleKeepsRest(w.db, Log(step.org, step.user, step.cost, Chat(step.requestId), w.month, w.now));
      } else {
        var t := w.db.tasks[step.id];
        SettleKeepsRest(w.db.(tasks := w.db.tasks[step.id := t.(billed := true)]),
                        TaskLog(t, step.id, step.tokens, w.month, w.now));
      }
    }
  }

  /** The step switches the user to limited, or deletes it. */
  predicate Curbs(step: Step, user: int, org: int) {
    match step
    case SwitchUser(_, u, unlimited) => u == user && !unlimited
    case RemoveMember(_, u) => u == user
    case RemoveOrg(o) => o == org
    case _ => false
  }

  /** The user has no limit of its own, so no call is refused for one. */
  ghost predicate Unlimited(db: Db, user: int, org: int) {
    && user in db.users && db.users[user].org == org && db.users[user].limit == None
    && forall period :: Precheck(db, user, period) != UserQuota
  }

  lemma UnlimitedStep(w: World, step: Step, user: int, org: int)
    requires Unlimited(w.db, user, org) && !Curbs(step, user, org)
    ensures Unlimited(After(w, step).db, user, org)
  {
    hide Precheck;
    RemainsThere(w, step, user);
    hide After;
    UserLimitAfter(w, step, user);
    NeverOverLimit(After(w, step).db, user);
  }

  lemma NeverOverLimit(db: Db, user: int)
    requires user in db.users && db.users[user].limit == None
    ensures forall period :: Precheck(db, user, period) != UserQuota
  {
  }

  lemma RemainsThere(w: World, step: Step, user: int)
    requires user in w.db.users
    requires !(step.RemoveMember? && step.user == user) && !(step.RemoveOrg? && step.org == w.db.users[user].org)
    ensures user in After(w, step).db.users
  {
    hide Settle, Part;
    if step.SettleChat? || step.FinishTask? { hide Transact; SettlementAddsNobody(w, step); }
  }

  /** Once unlimited, a user is refused no call for a limit of its own until it is switched to limited. */
  lemma {:induction false} UnlimitedStays(w: World, steps: seq<Step>, user: int, org: int)
    requires Unlimited(w.db, user, org)
    requires forall i :: 0 <= i < |steps| ==> !Curbs(steps[i], user, org)
    ensures Unlimited(Run(w, steps).db, user, org)
    decreases |steps|
  {
    hide Unlimited, Curbs, After;
    if steps != [] {
      UnlimitedStep(w, steps[0], user, org);
      UnlimitedStays(After(w, steps[0]), steps[1..], user, org);
    }
  }

  /** Switching to unlimited, opening an organization and adding a member without an amount all make the
      user unlimited. */
  lemma BecomesUnlimited(w: World, step: Step, user: int, org: int)
    requires Transact(w, step).Done?
    requires step == SwitchUser(org, user, true) || step == AddMember(org, user, 0)
             || (step.OpenOrg? && step.admin == user && step.org == org)
    ensures Unlimited(After(w, step).db, user, org)
  {
    hide Precheck;
    NeverOverLimit(After(w, step).db, user);
  }

  /** Switching an unlimited user to limited stops it at once: the limit is what it has used. */
  lemma SwitchedToLimited(w: World, user: int, period: int)
    requires user in w.db.users && w.db.users[user].limit == None && w.db.users[user].org in w.db.orgs
    ensures var db' := After(w, SwitchUser(w.db.users[user].org, user, false)).db;
            && user in db'.users && db'.users[user].limit == Some(w.db.users[user].account.used)
            && Precheck(db', user, period) == UserQuota
  {
  }

  /** In every reachable state a refusal names the first of the four limits, in this order, that the log
      says is used up. */
  lemma RefusalNamesFirst(w: World, user: int)
    requires LedgerRuns.Sound(w) && user in w.db.users && w.db.users[user].org in w.db.orgs
    ensures var u, org := w.db.users[user], w.db.users[user].org;
            var o, verdict := w.db.orgs[org], Precheck(w.db, user, w.month);
            var own := u.limit.Some? && Total(All(UserSubject(user)), w.db) >= u.limit.value;
            var ownMonth := !Under(u.monthlyQuota, Total(InMonth(UserSubject(user), w.month), w.db));
            var shared := Total(All(OrgSubject(org)), w.db) >= o.limit;
            var sharedMonth := !Under(o.monthlyQuota, Total(InMonth(OrgSubject(org), w.month), w.db));
            && (verdict == UserQuota <==> own)
            && (verdict == UserMonthly <==> !own && ownMonth)
            && (verdict == OrgQuota <==> !own && !ownMonth && shared)
            && (verdict == OrgMonthly <==> !own && !ownMonth && !shared && sharedMonth)
            && verdict != NoSuchUser
  {
    hide Sum;
    var s, t := UserSubject(user), OrgSubject(w.db.users[user].org);
    assert Exists(w.db, s) && Exists(w.db, t);
    MonthlyCostExact(w.db, s, w.month);
    MonthlyCostExact(w.db, t, w.month);
  }

  // ---- Status of organizations ----

  /** A successful change of the limit leaves arrears exactly when the limit is above what was used, and
      changes no other status. */
  lemma ResumesExactly(db: Db, org: int, limit: int64, amount: int64, cause: Cause)
    requires org in db.orgs
    ensures var o := db.orgs[org];
            && (AddOrgQuota(db, org, amount, cause).Done? <==> Fits(o.limit + amount))
            && (SetOrgQuota(db, org, limit).Done? <==> limit >= 0)
            && (Fits(o.limit + amount) ==>
                  Resumed(db, AddOrgQuota(db, org, amount, cause).db, org, o.limit + amount))
            && (limit >= 0 ==> Resumed(db, SetOrgQuota(db, org, limit).db, org, limit))
  {
  }

  predicate Resumed(db: Db, db': Db, org: int, limit: int)
    requires org in db.orgs
  {
    && org in db'.orgs && db'.orgs[org].limit == limit && db'.orgs[org].account == db.orgs[org].account
    && db'.orgs[org].monthlyQuota == db.orgs[org].monthlyQuota
    && (db.orgs[org].status == IN_ARREARS && db.orgs[org].account.used < limit ==>
          db'.orgs[org].status == ENABLED)
    && (db.orgs[org].status != IN_ARREARS || db.orgs[org].account.used >= limit ==>
          db'.orgs[org].status == db.orgs[org].status)
    && forall o :: o in db.orgs && o != org ==> o in db'.orgs && db'.orgs[o] == db.orgs[o]
  }

  // ---- Claims ----

  /** A decided recharge is never undecided, decided again or deleted. */
  predicate RechargeIs(db: Db, id: int, claim: Claim) { id in db.recharges && db.recharges[id].claim == claim }

  lemma RechargeStep(w: World, step: Step, id: int, claim: Claim)
    requires RechargeIs(w.db, id, claim) && claim != Pending
    ensures RechargeIs(After(w, step).db, id, claim)
  {
    hide Settle, Part, AddOrgQuota, AddUserQuota;
    if !step.Tick? && Transact(w, step).Done? {
      if step.SettleChat? || step.FinishTask? { SettlementKeepsClaims(w, step); }
      else if step.GrantOrg? || step.GrantUser? || step.DecideRecharge? || step.DecideQuota? {
        GrantKeepsClaims(w, step);
      }
    }
  }

  lemma SettlementKeepsClaims(w: World, step: Step)
    requires (step.SettleChat? || step.FinishTask?) && Transact(w, step).Done?
    ensures Transact(w, step).db.recharges == w.db.recharges && Transact(w, step).db.requests == w.db.requests
  {
    hide Settle;
    if step.SettleChat? {
      SettleKeepsRest(w.db, Log(step.org, step.user, step.cost, Chat(step.requestId), w.month, w.now));
    } else {
      var t := w.db.tasks[step.id];
      SettleKeepsRest(w.db.(tasks := w.db.tasks[step.id := t.(billed := true)]),
                      TaskLog(t, step.id, step.tokens, w.month, w.now));
    }
  }

  lemma GrantKeepsClaims(w: World, step: Step)
    requires step.GrantOrg? || step.GrantUser? || step.DecideRecharge? || step.DecideQuota?
    requires Transact(w, step).Done?
    ensures var db' := Transact(w, step).db;
            && db'.recharges.Keys == w.db.recharges.Keys && db'.requests.Keys == w.db.requests.Keys
            && (forall r :: r in w.db.recharges ==>
                  if step.DecideRecharge? && step.id == r then
                    && w.db.recharges[r].claim == Pending
                    && db'.recharges[r] == w.db.recharges[r].(claim := if step.approve then Approved else Refused)
                  else db'.recharges[r] == w.db.recharges[r])
            && (forall r :: r in w.db.requests ==>
                  if step.DecideQuota? && step.id == r then
                    && w.db.requests[r].claim == Pending && w.db.requests[r].org == step.org
                    && db'.requests[r] == w.db.requests[r].(claim := if step.approve then Approved else Refused)
                  else db'.requests[r] == w.db.requests[r])
  {
  }

  lemma {:induction false} RechargeStays(w: World, steps: seq<Step>, id: int, claim: Claim)
    requires RechargeIs(w.db, id, claim) && claim != Pending
    ensures RechargeIs(Run(w, steps).db, id, claim)
    decreases |steps|
  {
    hide RechargeIs, After;
    if steps != [] {
      RechargeStep(w, steps[0], id, claim);
      RechargeStays(After(w, steps[0]), steps[1..], id, claim);
    }
  }

  /** A recharge decided either way keeps that decision through any run, and every later decision is
      turned down. */
  lemma RechargeDecidedOnce(w: World, id: int, approve: bool, steps: seq<Step>, again: bool)
    requires Transact(w, DecideRecharge(id, approve)).Done?
    ensures var later := Run(After(w, DecideRecharge(id, approve)), steps);
            && RechargeIs(later.db, id, if approve then Approved else Refused)
            && Transact(later, DecideRecharge(id, again)) == Rejected(AlreadyHandled)
  {
    GrantKeepsClaims(w, DecideRecharge(id, approve));
    RechargeStays(After(w, DecideRecharge(id, approve)), steps, id, if approve then Approved else Refused);
  }

  /** The request is decided, or gone with its user. */
  predicate RequestIs(db: Db, id: int, claim: Claim) { id in db.requests ==> db.requests[id].claim == claim }

  lemma RequestStep(w: World, step: Step, id: int, claim: Claim)
    requires RequestIs(w.db, id, claim) && claim != Pending && !(step.AskQuota? && step.id == id)
    ensures RequestIs(After(w, step).db, id, claim)
  {
    hide Settle, Part, AddOrgQuota, AddUserQuota;
    if !step.Tick? && Transact(w, step).Done? {
      if step.SettleChat? || step.FinishTask? { SettlementKeepsClaims(w, step); }
      else if step.GrantOrg? || step.GrantUser? || step.DecideRecharge? || step.DecideQuota? {
        GrantKeepsClaims(w, step);
      }
    }
  }

  lemma {:induction false} RequestStays(w: World, steps: seq<Step>, id: int, claim: Claim)
    requires RequestIs(w.db, id, claim) && claim != Pending
    requires forall i :: 0 <= i < |steps| ==> !(steps[i].AskQuota? && steps[i].id == id)
    ensures RequestIs(Run(w, steps).db, id, claim)
    decreases |steps|
  {
    hide RequestIs, After;
    if steps != [] {
      RequestStep(w, steps[0], id, claim);
      RequestStays(After(w, steps[0]), steps[1..], id, claim);
    }
  }

  /** The same of a quota request, whose identifier is never given out again. */
  lemma RequestDecidedOnce(w: World, id: int, org: int, approve: bool, steps: seq<Step>, org': int, again: bool)
    requires Transact(w, DecideQuota(id, org, approve)).Done?
    requires forall i :: 0 <= i < |steps| ==> !(steps[i].AskQuota? && steps[i].id == id)
    ensures var now := After(w, DecideQuota(id, org, approve));
            var later := Run(now, steps);
            && id in now.db.requests && now.db.requests[id].claim == (if approve then Approved else Refused)
            && Transact(later, DecideQuota(id, org', again))
            == Rejected(if id in later.db.requests then AlreadyHandled else NotFound)
  {
    GrantKeepsClaims(w, DecideQuota(id, org, approve));
    RequestStays(After(w, DecideQuota(id, org, approve)), steps, id, if approve then Approved else Refused);
  }

  // ---- Video tasks ----

  /** A finished task, unless it is nobody's, costs its output tokens at the price it was submitted at:
      both accounts rise by that, and a row says so. */
  lemma TaskBilled(w: World, id: int, tokens: int64, billed: nat)
    requires Transact(w, FinishTask(id, tokens)).Done? && Cost.Cut(tokens, billed)
    ensures var t, db' := w.db.tasks[id], Transact(w, FinishTask(id, tokens)).db;
            exists cost: int ::
              && (if t.org == 0 then cost == 0
                  else Cost.Points(cost, billed * if t.outputPrice > 0 then t.outputPrice else 0))
              && db'.logs == w.db.logs + [Log(t.org, t.user, cost, Video(id), w.month, w.now)]
              && (t.org in w.db.orgs ==>
                    t.org in db'.orgs && db'.orgs[t.org].account.used == w.db.orgs[t.org].account.used + cost)
              && (t.user in w.db.users ==>
                    t.user in db'.users && db'.users[t.user].account.used == w.db.users[t.user].account.used + cost)
  {
    hide Settle, Cost.Points, Cost.FairCost;
    var t, db' := w.db.tasks[id], Transact(w, FinishTask(id, tokens)).db;
    var claimed := w.db.(tasks := w.db.tasks[id := t.(billed := true)]);
    var l := TaskLog(t, id, tokens, w.month, w.now);
    SettleKeepsRest(claimed, l);
    if t.org in w.db.orgs { SettleAccounts(claimed, l, OrgSubject(t.org)); }
    if t.user in w.db.users { SettleAccounts(claimed, l, UserSubject(t.user)); }
    TaskPrice(t, tokens, billed);
    var cost := l.cost;
    assert t.org != 0 ==> Cost.Points(cost, billed * if t.outputPrice > 0 then t.outputPrice else 0);
  }

  lemma TaskPrice(t: Task, tokens: int64, billed: nat)
    requires Cost.Cut(tokens, billed)
    ensures if t.org == 0 then TaskCost(t, tokens) == 0
            else Cost.Points(TaskCost(t, tokens), billed * if t.outputPrice > 0 then t.outputPrice else 0)
  {
    hide Cost.Points, Cost.FairCost;
    if t.org != 0 { Cost.BillExact(0, 0, Cost.ClampTokens(tokens), 0, 0, t.outputPrice, 0, 0, billed); }
  }
}
