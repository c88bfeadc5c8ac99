/** Month-end balances rebuilt after the fact, and the statement that must reconcile with them
    (internal/service/billing.go). Months are numbered 12 * year + month; `start(p)` is the first
    second of month p in the billing time zone. */
module Billing {
  import opened Words
  import opened Calendar
  import opened Chunks
  import opened Ledger
  import opened LedgerBooks
  import opened LedgerRuns

  datatype Balance = Balance(limit: int64, used: int, takenAt: int)

  /** `marker` is the month the automatic snapshot last claimed. */
  datatype Book = Book(world: World, balances: map<(int, int), Balance>, marker: Option<int>)

  /** The present level minus what was logged at or after the month's end. */
  function EndUsed(db: Db, org: int, end: int): int
    requires org in db.orgs
  {
    db.orgs[org].account.used - Sum(From(org, end), db.logs)
  }

  function BalanceOf(db: Db, org: int, end: int, now: int): Balance
    requires org in db.orgs
  {
    Balance(db.orgs[org].limit, EndUsed(db, org, end), now)
  }

  /** Writes or overwrites the balance of every organization. */
  function SnapshotBalances(b: Book, period: int, end: int): Book {
    var db := b.world.db;
    b.(balances := map k | k in b.balances.Keys + set o | o in db.orgs :: (o, period) ::
      if k.1 == period && k.0 in db.orgs then BalanceOf(db, k.0, end, b.world.now) else b.balances[k])
  }

  /** The same for the organizations of a list. */
  function Upserted(balances: map<(int, int), Balance>, db: Db, rows: seq<int>, period: int, end: int,
                    now: int): map<(int, int), Balance>
    requires forall o :: o in rows ==> o in db.orgs
  {
    if rows == [] then balances
    else
      var o := rows[|rows| - 1];
      Upserted(balances, db, rows[..|rows| - 1], period, end, now)[(o, period) := BalanceOf(db, o, end, now)]
  }

  lemma {:induction false} UpsertedAt(balances: map<(int, int), Balance>, db: Db, rows: seq<int>, period: int,
                                      end: int, now: int, k: (int, int))
    requires forall o :: o in rows ==> o in db.orgs
    ensures var after := Upserted(balances, db, rows, period, end, now);
            && (k in after <==> k in balances || (k.1 == period && k.0 in rows))
            && (k in after ==>
                  after[k] == if k.1 == period && k.0 in rows then BalanceOf(db, k.0, end, now) else balances[k])
  {
    hide BalanceOf;
    if rows != [] {
      UpsertedAt(balances, db, rows[..|rows| - 1], period, end, now, k);
      assert rows == rows[..|rows| - 1] + [rows[|rows| - 1]];
    }
  }

  lemma UpsertedAll(b: Book, rows: seq<int>, period: int, end: int)
    requires forall o :: o in rows <==> o in b.world.db.orgs
    ensures b.(balances := Upserted(b.balances, b.world.db, rows, period, end, b.world.now))
        == SnapshotBalances(b, period, end)
  {
    hide BalanceOf, Upserted;
    forall k: (int, int) {
      UpsertedAt(b.balances, b.world.db, rows, period, end, b.world.now, k);
    }
    assert Upserted(b.balances, b.world.db, rows, period, end, b.world.now)
        == SnapshotBalances(b, period, end).balances;
  }

  /** The month of "now minus one month". */
  function MonthBack(month: int, day: int): int { AddMonths(Civil(month, day), -1).month }

  /** The automatic snapshot, once per claimed month. */
  function SnapshotPrevOnce(b: Book, month: int, day: int, start: int -> int): Book {
    var period := MonthBack(month, day);
    if b.marker == Some(period) then b
    else SnapshotBalances(b.(marker := Some(period)), period, start(period + 1))
  }

  /** The two tables the snapshots write, row by row. */
  class Snapshots {
    var balances: map<(int, int), Balance>
    var marker: Option<int>

    constructor ()
      ensures balances == map[] && marker == None
    {
      balances, marker := map[], None;
    }

    function View(w: World): Book
      reads this
    {
      Book(w, balances, marker)
    }

    /** `rows` is the query's result, in any order. */
    method TakeBalances(w: World, rows: seq<int>, period: int, end: int)
      requires forall o :: o in rows <==> o in w.db.orgs
      modifies this`balances
      ensures View(w) == SnapshotBalances(old(View(w)), period, end)
    {
      hide BalanceOf;
      ghost var before := balances;
      for i := 0 to |rows|
        invariant balances == Upserted(before, w.db, rows[..i], period, end, w.now)
      {
        assert rows[..i + 1][..i] == rows[..i];
        balances := balances[(rows[i], period) := BalanceOf(w.db, rows[i], end, w.now)];
      }
      assert rows[..|rows|] == rows;
      UpsertedAll(old(View(w)), rows, period, end);
    }

    method TakePreviousOnce(w: World, rows: seq<int>, month: int, day: int, start: int -> int)
      requires forall o :: o in rows <==> o in w.db.orgs
      modifies this
      ensures View(w) == SnapshotPrevOnce(old(View(w)), month, day, start)
    {
      var previous := MonthBack(month, day);
      if marker == Some(previous) { return; }
      marker := Some(previous);
      TakeBalances(w, rows, previous, start(previous + 1));
    }
  }

  datatype BookStep = Transaction(step: Step) | Snapshot(period: int) | Auto(month: int, day: int)

  function Turn(b: Book, s: BookStep, start: int -> int): Book {
    match s
    case Transaction(step) => b.(world := After(b.world, step))
    case Snapshot(period) => SnapshotBalances(b, period, start(period + 1))
    case Auto(month, day) => SnapshotPrevOnce(b, month, day, start)
  }

  /** Rows logged at or after the end of the month have not been archived when its snapshot is
      taken; SnapshotExact shows that this is exactly what a snapshot needs. */
  ghost predicate Unarchived(b: Book, end: int) {
    forall l :: l in b.world.db.purged ==> l.createdAt < end
  }

  ghost predicate LawfulTurn(b: Book, s: BookStep, start: int -> int) {
    match s
    case Transaction(step) => Lawful(b.world, step)
    case Snapshot(period) => Unarchived(b, start(period + 1))
    case Auto(month, day) =>
      && Unarchived(b, start(MonthBack(month, day) + 1))
      && start(month) <= b.world.now < start(month + 1) && 1 <= day <= DaysIn(month)
  }

  function Turns(b: Book, ss: seq<BookStep>, start: int -> int): Book
    decreases |ss|
  {
    if ss == [] then b else Turns(Turn(b, ss[0], start), ss[1..], start)
  }

  ghost predicate LawfulTurns(b: Book, ss: seq<BookStep>, start: int -> int)
    decreases |ss|
  {
    ss == [] || (LawfulTurn(b, ss[0], start) && LawfulTurns(Turn(b, ss[0], start), ss[1..], start))
  }

  // ---- A snapshot is the level at the month's end ----

  lemma {:induction false} SumSplit(org: int, at: int, logs: seq<Log>)
    ensures Sum(All(OrgSubject(org)), logs) == Sum(Before(org, at), logs) + Sum(From(org, at), logs)
  {
    if logs != [] { SumSplit(org, at, logs[..|logs| - 1]); }
  }

  lemma {:induction false} SumSpan(org: int, start: int, end: int, logs: seq<Log>)
    requires start <= end
    ensures Sum(Before(org, end), logs) == Sum(Before(org, start), logs) + Sum(Span(org, start, end), logs)
  {
    if logs != [] { SumSpan(org, start, end, logs[..|logs| - 1]); }
  }

  /** However late it is taken, a snapshot is the sum of all costs ever logged before the month's
      end, exactly when no later cost has been archived away. */
  lemma SnapshotExact(db: Db, org: int, end: int)
    requires Inv(db) && org in db.orgs
    ensures EndUsed(db, org, end) == Total(Before(org, end), db) <==> Sum(From(org, end), db.purged) == 0
  {
    assert Exists(db, OrgSubject(org));
    SumSplit(org, end, db.logs);
    SumSplit(org, end, db.purged);
  }

  /** No row is stamped later than the clock. */
  ghost predicate Dated(w: World) {
    forall l :: l in w.db.logs || l in w.db.purged ==> l.createdAt <= w.now
  }

  ghost predicate Exact(b: Book, start: int -> int) {
    forall k :: k in b.balances ==>
      b.balances[k].takenAt <= b.world.now
      && (start(k.1 + 1) <= b.balances[k].takenAt ==>
            b.balances[k].used == Total(Before(k.0, start(k.1 + 1)), b.world.db))
  }

  ghost predicate Kept(b: Book, start: int -> int) {
    Sound(b.world) && Dated(b.world) && Exact(b, start)
  }

  // ---- Transactions leave the past alone ----

  lemma PastFixed(w: World, step: Step, org: int, end: int)
    requires Lawful(w, step) && end <= w.now
    ensures Total(Before(org, end), After(w, step).db) == Total(Before(org, end), w.db)
  {
    hide After, Lawful;
    LogEffect(w, step);
    var db, db' := w.db, After(w, step).db;
    if l :| db'.logs == db.logs + [l] && db'.purged == db.purged && l.createdAt == w.now && l.period == w.month {
      SumSnoc(Before(org, end), db.logs, l);
    } else if step.MoveToArchive? && db' == Archive(db, step.start, step.end) {
      ArchiveTotals(db, step.start, step.end, Before(org, end));
    }
  }

  lemma TransactionDated(w: World, step: Step)
    requires Lawful(w, step) && Dated(w)
    ensures Dated(After(w, step))
  {
    hide After, Lawful;
    LogEffect(w, step);
    if step.MoveToArchive? {
      PartExact(w.db.logs, step.start, step.end, true);
      PartExact(w.db.logs, step.start, step.end, false);
    }
  }

  lemma TransactionKept(b: Book, step: Step, start: int -> int)
    requires Kept(b, start) && Lawful(b.world, step)
    ensures Kept(Turn(b, Transaction(step), start), start)
  {
    hide Sound, After, Lawful, Dated;
    StepSound(b.world, step);
    TransactionDated(b.world, step);
    LogEffect(b.world, step);
    var b' := Turn(b, Transaction(step), start);
    forall k | k in b'.balances && start(k.1 + 1) <= b'.balances[k].takenAt
      ensures b'.balances[k].used == Total(Before(k.0, start(k.1 + 1)), b'.world.db) {
      PastFixed(b.world, step, k.0, start(k.1 + 1));
    }
  }

  lemma SnapshotKept(b: Book, period: int, start: int -> int)
    requires Kept(b, start) && Unarchived(b, start(period + 1))
    ensures Kept(SnapshotBalances(b, period, start(period + 1)), start)
  {
    hide Sum;
    var b' := SnapshotBalances(b, period, start(period + 1));
    var db := b.world.db;
    forall k | k in b'.balances
      ensures b'.balances[k].takenAt <= b'.world.now
      ensures start(k.1 + 1) <= b'.balances[k].takenAt ==>
          b'.balances[k].used == Total(Before(k.0, start(k.1 + 1)), db) {
      if k.1 == period && k.0 in db.orgs {
        SumNothing(From(k.0, start(period + 1)), db.purged);
        SnapshotExact(db, k.0, start(period + 1));
      }
    }
  }

  lemma MarkerIrrelevant(b: Book, marker: Option<int>, start: int -> int)
    ensures Kept(b, start) ==> Kept(b.(marker := marker), start)
    ensures forall end :: Unarchived(b.(marker := marker), end) == Unarchived(b, end)
  {
    hide Sound, Dated, Total;
  }

  lemma TurnKept(b: Book, s: BookStep, start: int -> int)
    requires Kept(b, start) && LawfulTurn(b, s, start)
    ensures Kept(Turn(b, s, start), start)
  {
    hide Kept, Lawful, After, SnapshotBalances, Unarchived;
    match s {
      case Transaction(step) => TransactionKept(b, step, start);
      case Snapshot(period) => SnapshotKept(b, period, start);
      case Auto(month, day) =>
        var period := MonthBack(month, day);
        if b.marker != Some(period) {
          MarkerIrrelevant(b, Some(period), start);
          SnapshotKept(b.(marker := Some(period)), period, start);
        }
    }
  }

  lemma {:induction false} TurnsKept(b: Book, ss: seq<BookStep>, start: int -> int)
    requires Kept(b, start) && LawfulTurns(b, ss, start)
    ensures Kept(Turns(b, ss, start), start)
    decreases |ss|
  {
    hide Kept, LawfulTurn, Turn;
    if ss != [] {
      TurnKept(b, ss[0], start);
      TurnsKept(Turn(b, ss[0], start), ss[1..], start);
    }
  }

  /** A row that is committed after a balance was taken leaves it true exactly when the row is free or
      not stamped before the month's end; retaking it makes it true again, by SnapshotExact. */
  lemma LateCommitExact(db: Db, l: Log, end: int, used: int)
    requires Settle(db, l).Done? && used == Total(Before(l.org, end), db)
    ensures used == Total(Before(l.org, end), Settle(db, l).db) <==> l.cost == 0 || end <= l.createdAt
  {
    hide Settle, Sum;
    SettleKeepsRest(db, l);
    SumSnoc(Before(l.org, end), db.logs, l);
  }

  // ---- The statement ----

  datatype Statement = Statement(opening: Option<int>, closing: int, closingIsLive: bool, consumption: int,
                                 chainOk: Option<bool>)

  function BuildStatement(b: Book, org: int, period: int, start: int -> int): Option<Statement> {
    var db := b.world.db;
    if org !in db.orgs then None
    else
      var opening := if (org, period - 1) in b.balances then Some(b.balances[(org, period - 1)].used) else None;
      var live := (org, period) !in b.balances;
      var closing := if live then db.orgs[org].account.used else b.balances[(org, period)].used;
      var consumption := Sum(Span(org, start(period), start(period + 1)), db.logs);
      var chainOk := if opening.None? then None else Some(closing - opening.value == consumption);
      Some(Statement(opening, closing, live, consumption, chainOk))
  }

  /** Balance p was taken once its month was over. */
  predicate TakenInTime(b: Book, org: int, p: int, start: int -> int) {
    (org, p) in b.balances && start(p + 1) <= b.balances[(org, p)].takenAt
  }

  lemma KeptChain(b: Book, org: int, period: int, start: int -> int)
    requires Kept(b, start) && Increasing(start) && org in b.world.db.orgs
    requires TakenInTime(b, org, period - 1, start)
    ensures var db := b.world.db;
            var s := BuildStatement(b, org, period, start).value;
            && (TakenInTime(b, org, period, start) ==>
                  && s.closing - s.opening.value == Total(Span(org, start(period), start(period + 1)), db)
                  && s.chainOk == Some(Sum(Span(org, start(period), start(period + 1)), db.purged) == 0))
            && ((org, period) !in b.balances ==>
                  && s.closing - s.opening.value
                        == Total(Span(org, start(period), start(period + 1)), db)
                            + Total(From(org, start(period + 1)), db)
                  && s.chainOk == Some(Sum(Span(org, start(period), start(period + 1)), db.purged)
                                       + Total(From(org, start(period + 1)), db) == 0))
  {
    hide Sum;
    var db, e := b.world.db, start(period + 1);
    assert start(period) < start(period + 1);
    assert b.balances[(org, period - 1)].used == Total(Before(org, start(period - 1 + 1)), db);
    assert Exists(db, OrgSubject(org));
    SumSpan(org, start(period), e, db.logs);
    SumSpan(org, start(period), e, db.purged);
    SumSplit(org, e, db.logs);
    SumSplit(org, e, db.purged);
  }

  /** After any run of transactions, archiving and snapshots, in whatever order and however often
      retaken: with both balances taken after their months, closing minus opening is what was
      consumed, and the statement reconciles exactly when none of that month has been archived. */
  lemma StatementsReconcile(ss: seq<BookStep>, now: int, month: nat, start: int -> int, org: int, period: int)
    requires Increasing(start)
    requires LawfulTurns(Book(World(EMPTY, now, month), map[], None), ss, start)
    requires var b := Turns(Book(World(EMPTY, now, month), map[], None), ss, start);
             org in b.world.db.orgs && TakenInTime(b, org, period - 1, start) && TakenInTime(b, org, period, start)
    ensures var b := Turns(Book(World(EMPTY, now, month), map[], None), ss, start);
            var s := BuildStatement(b, org, period, start).value;
            && s.closing - s.opening.value == Total(Span(org, start(period), start(period + 1)), b.world.db)
            && (s.chainOk == Some(true) <==> Sum(Span(org, start(period), start(period + 1)), b.world.db.purged) == 0)
  {
    hide Turns, LawfulTurns;
    EmptySound(now, month);
    TurnsKept(Book(World(EMPTY, now, month), map[], None), ss, start);
    KeptChain(Turns(Book(World(EMPTY, now, month), map[], None), ss, start), org, period, start);
  }

  /** With a true opening and the month still in the log table, a statement reconciles exactly when
      its closing figure is the level at the month's end. */
  lemma ReconcilesIffClosingTrue(b: Book, org: int, period: int, start: int -> int)
    requires Kept(b, start) && Increasing(start) && org in b.world.db.orgs
    requires TakenInTime(b, org, period - 1, start)
    requires Sum(Span(org, start(period), start(period + 1)), b.world.db.purged) == 0
    ensures var s := BuildStatement(b, org, period, start).value;
            s.chainOk == Some(true) <==> s.closing == Total(Before(org, start(period + 1)), b.world.db)
  {
    hide Sum, Sound, Dated;
    var db := b.world.db;
    assert start(period) < start(period + 1);
    assert b.balances[(org, period - 1)].used == Total(Before(org, start(period - 1 + 1)), db);
    SumSpan(org, start(period), start(period + 1), db.logs);
    SumSpan(org, start(period), start(period + 1), db.purged);
  }

  // ---- The automatic snapshot at the end of a long month ----

  /** The automatic snapshot means the month before; it claims it exactly when that month has as
      many days as today's date. Otherwise it claims the month still running. */
  lemma AutoClaimsPreviousMonth(month: int, day: int)
    requires 1 <= day <= DaysIn(month)
    ensures MonthBack(month, day) == month - 1 <==> day <= DaysIn(month - 1)
    ensures day > DaysIn(month - 1) ==> MonthBack(month, day) == month && day >= 29
  {
    MonthBackExact(Civil(month, day));
  }

  /** What a start on such a day writes: the running month's balance at its present level. */
  lemma EarlySnapshot(b: Book, month: int, day: int, start: int -> int, org: int)
    requires Kept(b, start) && LawfulTurn(b, Auto(month, day), start)
    requires day > DaysIn(month - 1) && b.marker != Some(month) && org in b.world.db.orgs
    ensures var b1 := Turn(b, Auto(month, day), start);
            && b1.marker == Some(month) && (org, month) in b1.balances
            && b1.balances[(org, month)].used == b.world.db.orgs[org].account.used
            && b1.balances[(org, month)].takenAt == b.world.now < start(month + 1)
  {
    hide Sum, Sound, Exact, DaysIn, AddMonths;
    AutoClaimsPreviousMonth(month, day);
    SumNothing(From(org, start(month + 1)), b.world.db.logs);
  }

  /** The snapshot due on the first of the next month then finds the month claimed and corrects
      nothing, whatever was consumed in between. */
  lemma EarlySnapshotSticks(b: Book, month: int, day: int, steps: seq<BookStep>, start: int -> int, org: int)
    requires Kept(b, start) && LawfulTurn(b, Auto(month, day), start)
    requires day > DaysIn(month - 1) && b.marker != Some(month) && org in b.world.db.orgs
    requires forall i :: 0 <= i < |steps| ==> steps[i].Transaction?
    ensures var b' := Turn(Turns(Turn(b, Auto(month, day), start), steps, start), Auto(month + 1, 1), start);
            && (org, month) in b'.balances
            && b'.balances[(org, month)].used == b.world.db.orgs[org].account.used
            && b'.balances[(org, month)].takenAt < start(month + 1)
  {
    hide Kept, Turns, SnapshotBalances, LawfulTurn, DaysIn, AddMonths;
    var b1 := Turn(b, Auto(month, day), start);
    EarlySnapshot(b, month, day, start, org);
    TransactionsOnly(b1, steps, start);
    AutoClaimsPreviousMonth(month + 1, 1);
  }

  lemma {:induction false} TransactionsOnly(b: Book, steps: seq<BookStep>, start: int -> int)
    requires forall i :: 0 <= i < |steps| ==> steps[i].Transaction?
    ensures Turns(b, steps, start).balances == b.balances && Turns(b, steps, start).marker == b.marker
    decreases |steps|
  {
    if steps != [] { TransactionsOnly(Turn(b, steps[0], start), steps[1..], start); }
  }
}
