/** One run of the book in which the automatic snapshot claims the month that is still running
    (internal/service/billing.go). */
module LastOfMarch {
  import opened Calendar
  import opened Chunks
  import opened Ledger
  import opened LedgerBooks
  import opened LedgerRuns
  import opened Billing

  /** The first second of a month, days being 86400 seconds long. */
  function StartOf(p: int): int { if p < 0 then 86400 * 28 * p else 86400 * FirstDay(p) }

  lemma StartOfIncreasing()
    ensures Increasing(StartOf)
  {
  }

  function MarchOf(year: nat): nat { 12 * year + 2 }

  function NoonOf(year: nat): int { StartOf(MarchOf(year)) + 30 * 86400 + 43200 }

  /** A customer is opened, February is written, the server starts at noon, five points are used, and
      on 1 April the regular snapshot comes. */
  function MarchSteps(year: nat): seq<BookStep> {
    [Transaction(OpenOrg(1, 1, 100)), Snapshot(MarchOf(year) - 1), Auto(MarchOf(year), 31),
     Transaction(SettleChat(1, 1, 5, 7)), Transaction(Tick(StartOf(MarchOf(year) + 1) + 300, MarchOf(year) + 1)),
     Auto(MarchOf(year) + 1, 1)]
  }

  /** The tables with that customer, before and after the call. */
  function MarchDb(year: nat, called: bool): Db {
    var account := if called then Account(5, 5, MarchOf(year)) else NEW_ACCOUNT;
    Db(map[1 := Org(100, account, 0, ENABLED)], map[1 := User(1, None, account, 0)],
       [Grant(OrgSubject(1), 100, Manual)],
       if called then [Log(1, 1, 5, Chat(7), MarchOf(year), NoonOf(year))] else [], [], map[], map[], map[])
  }

  /** The book after the first k steps. */
  function MarchBook(year: nat, k: nat): Book {
    var march, noon := MarchOf(year), NoonOf(year);
    var february := map[(1, march - 1) := Balance(100, 0, noon)];
    var both := february[(1, march) := Balance(100, 0, noon)];
    if k == 0 then Book(World(EMPTY, noon, march), map[], None)
    else if k == 1 then Book(World(MarchDb(year, false), noon, march), map[], None)
    else if k == 2 then Book(World(MarchDb(year, false), noon, march), february, None)
    else if k == 3 then Book(World(MarchDb(year, false), noon, march), both, Some(march))
    else if k == 4 then Book(World(MarchDb(year, true), noon, march), both, Some(march))
    else Book(World(MarchDb(year, true), StartOf(march + 1) + 300, march + 1), both, Some(march))
  }

  lemma MarchTurn(year: nat, k: nat)
    requires k < 6
    ensures LawfulTurn(MarchBook(year, k), MarchSteps(year)[k], StartOf)
    ensures Turn(MarchBook(year, k), MarchSteps(year)[k], StartOf) == MarchBook(year, k + 1)
  {
    hide DaysIn, AddMonths, FirstDay;
    MarchLessOneMonth(year);
    MarchDays(year);
    AutoClaimsPreviousMonth(MarchOf(year), 31);
    AutoClaimsPreviousMonth(MarchOf(year) + 1, 1);
    if k < 2 { MarchOpens(year, k); } else if k == 2 { MarchStarts(year); }
  }

  lemma {:induction false} MarchTurns(year: nat, k: nat)
    requires k <= 6
    ensures LawfulTurns(MarchBook(year, k), MarchSteps(year)[k..], StartOf)
    ensures Turns(MarchBook(year, k), MarchSteps(year)[k..], StartOf) == MarchBook(year, 6)
    decreases 6 - k
  {
    hide MarchBook, LawfulTurn, Turn, MarchSteps;
    assert |MarchSteps(year)| == 6 by { SixSteps(year); }
    if k < 6 {
      MarchTurn(year, k);
      MarchTurns(year, k + 1);
      assert MarchSteps(year)[k..][1..] == MarchSteps(year)[k + 1..];
    }
  }

  lemma SixSteps(year: nat)
    ensures |MarchSteps(year)| == 6
  {
  }

  /** March is found claimed: its statement does not reconcile, in plain years and leap years alike. */
  lemma StartOnLastOfMarch(year: nat)
    ensures var b := Book(World(EMPTY, NoonOf(year), MarchOf(year)), map[], None);
            && LawfulTurns(b, MarchSteps(year), StartOf)
            && BuildStatement(Turns(b, MarchSteps(year), StartOf), 1, MarchOf(year), StartOf)
               == Some(Statement(Some(0), 0, false, 5, Some(false)))
  {
    hide Turns, LawfulTurns, FirstDay, DaysIn;
    MarchTurns(year, 0);
    MarchDays(year);
    assert MarchSteps(year)[0..] == MarchSteps(year);
    var b := MarchBook(year, 6);
    assert Sum(Span(1, StartOf(MarchOf(year)), StartOf(MarchOf(year) + 1)), b.world.db.logs) == 5;
  }

  lemma MarchOpens(year: nat, k: nat)
    requires k < 2
    ensures Turn(MarchBook(year, k), MarchSteps(year)[k], StartOf) == MarchBook(year, k + 1)
  {
    hide StartOf;
    var b := MarchBook(year, k);
    if k == 0 {
      assert After(b.world, OpenOrg(1, 1, 100)).db.orgs == MarchDb(year, false).orgs;
      assert After(b.world, OpenOrg(1, 1, 100)).db.users == MarchDb(year, false).users;
    } else {
      assert Turn(b, MarchSteps(year)[k], StartOf).balances == MarchBook(year, 2).balances;
    }
  }

  lemma MarchStarts(year: nat)
    requires MonthBack(MarchOf(year), 31) == MarchOf(year)
    ensures Turn(MarchBook(year, 2), MarchSteps(year)[2], StartOf) == MarchBook(year, 3)
  {
    hide StartOf, AddMonths;
    assert Turn(MarchBook(year, 2), MarchSteps(year)[2], StartOf).balances == MarchBook(year, 3).balances;
  }

  lemma MarchDays(year: nat)
    ensures DaysIn(12 * year + 2) == 31 && DaysIn(12 * year + 1) <= 29
    ensures StartOf(12 * year + 3) == StartOf(12 * year + 2) + 31 * 86400
    ensures StartOf(12 * year + 4) >= StartOf(12 * year + 3) + 28 * 86400
  {
    assert (12 * year + 2) / 12 == year && (12 * year + 2) % 12 == 2;
    assert (12 * year + 1) / 12 == year && (12 * year + 1) % 12 == 1;
  }
}
