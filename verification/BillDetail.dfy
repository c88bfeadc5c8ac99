/** The detail section of a statement: usage grouped by day, model and cost center, the largest
    part of it listed (internal/service/billing.go). */
module BillDetail {
  import opened Billing
  import opened Chunks
  import opened Ledger
  import opened LedgerBooks
  import opened LedgerRuns

  datatype Key = Key(day: string, modelName: string, center: Option<int>)

  /** A usage row with the columns the grouping looks at. */
  datatype Entry = Entry(log: Log, key: Key, status: int)

  datatype Row = Row(key: Key, requests: nat, cost: int)

  predicate InSpan(e: Entry, org: int, start: int, end: int) {
    e.log.org == org && start <= e.log.createdAt < end
  }

  /** Refused attempts are not listed. */
  predicate Listed(e: Entry, org: int, start: int, end: int) {
    InSpan(e, org, start, end) && (e.status == 200 || e.log.cost > 0)
  }

  function Consumption(entries: seq<Entry>, org: int, start: int, end: int): int {
    if entries == [] then 0
    else
      var e := entries[|entries| - 1];
      Consumption(entries[..|entries| - 1], org, start, end) + if InSpan(e, org, start, end) then e.log.cost else 0
  }

  function Keys(rows: seq<Row>): set<Key> {
    set r | r in rows :: r.key
  }

  function AddTo(rows: seq<Row>, e: Entry): seq<Row> {
    if rows == [] then [Row(e.key, 1, e.log.cost)]
    else if rows[0].key == e.key then [Row(e.key, rows[0].requests + 1, rows[0].cost + e.log.cost)] + rows[1..]
    else [rows[0]] + AddTo(rows[1..], e)
  }

  function GroupRows(entries: seq<Entry>, org: int, start: int, end: int): seq<Row> {
    if entries == [] then []
    else
      var e, rows := entries[|entries| - 1], GroupRows(entries[..|entries| - 1], org, start, end);
      if Listed(e, org, start, end) then AddTo(rows, e) else rows
  }

  function RowsCost(rows: seq<Row>): int {
    if rows == [] then 0 else RowsCost(rows[..|rows| - 1]) + rows[|rows| - 1].cost
  }

  function ClampLimit(limit: int): (r: nat)
    ensures 0 < r <= 2000 && (0 < limit <= 2000 ==> r == limit)
  {
    if limit <= 0 then 500 else if limit > 2000 then 2000 else limit
  }

  function Shown(ordered: seq<Row>, limit: int): seq<Row> {
    if |ordered| <= ClampLimit(limit) then ordered else ordered[..ClampLimit(limit)]
  }

  method TotalCostSum(rows: seq<Row>) returns (sum: int)
    ensures sum == RowsCost(rows)
  {
    sum := 0;
    for i := 0 to |rows|
      invariant sum == RowsCost(rows[..i])
    {
      sum := sum + rows[i].cost;
      assert rows[..i + 1][..i] == rows[..i];
    }
    assert rows[..|rows|] == rows;
  }

  // ---- Sums ----

  lemma {:induction false} RowsCostAppend(xs: seq<Row>, ys: seq<Row>)
    ensures RowsCost(xs + ys) == RowsCost(xs) + RowsCost(ys)
  {
    if ys == [] {
      assert xs + ys == xs;
    } else {
      RowsCostAppend(xs, ys[..|ys| - 1]);
      assert (xs + ys)[..|xs + ys| - 1] == xs + ys[..|ys| - 1];
    }
  }

  lemma RowsCostCons(r: Row, rows: seq<Row>)
    ensures RowsCost([r] + rows) == r.cost + RowsCost(rows)
  {
    RowsCostAppend([r], rows);
    assert RowsCost([r]) == RowsCost([r][..0]) + r.cost;
  }

  lemma {:induction false} AddToCost(rows: seq<Row>, e: Entry)
    ensures RowsCost(AddTo(rows, e)) == RowsCost(rows) + e.log.cost
  {
    if rows == [] {
      RowsCostCons(Row(e.key, 1, e.log.cost), []);
    } else {
      assert rows == [rows[0]] + rows[1..];
      RowsCostCons(rows[0], rows[1..]);
      if rows[0].key == e.key {
        RowsCostCons(Row(e.key, rows[0].requests + 1, rows[0].cost + e.log.cost), rows[1..]);
      } else {
        AddToCost(rows[1..], e);
        RowsCostCons(rows[0], AddTo(rows[1..], e));
      }
    }
  }

  /** Nothing is lost or counted twice by the grouping, since what is not listed cost nothing. */
  lemma {:induction false} GroupsCoverConsumption(entries: seq<Entry>, org: int, start: int, end: int)
    requires forall e :: e in entries ==> 0 <= e.log.cost
    ensures RowsCost(GroupRows(entries, org, start, end)) == Consumption(entries, org, start, end)
  {
    if entries != [] {
      var rest, e := entries[..|entries| - 1], entries[|entries| - 1];
      GroupsCoverConsumption(rest, org, start, end);
      AddToCost(GroupRows(rest, org, start, end), e);
    }
  }

  predicate Distinct(rows: seq<Row>) {
    rows == [] || (rows[0].key !in Keys(rows[1..]) && Distinct(rows[1..]))
  }

  lemma {:induction false} AddToKeys(rows: seq<Row>, e: Entry)
    ensures Keys(AddTo(rows, e)) == Keys(rows) + {e.key}
  {
    if rows == [] {
      assert Keys([Row(e.key, 1, e.log.cost)]) == {e.key};
    } else {
      KeysCons(rows[0], rows[1..]);
      assert rows == [rows[0]] + rows[1..];
      if rows[0].key == e.key {
        KeysCons(Row(e.key, rows[0].requests + 1, rows[0].cost + e.log.cost), rows[1..]);
      } else {
        AddToKeys(rows[1..], e);
        KeysCons(rows[0], AddTo(rows[1..], e));
      }
    }
  }

  lemma KeysCons(r: Row, rows: seq<Row>)
    ensures Keys([r] + rows) == {r.key} + Keys(rows)
  {
    assert forall x :: x in [r] + rows <==> x == r || x in rows;
    assert r in [r] + rows;
  }

  lemma {:induction false} AddToDistinct(rows: seq<Row>, e: Entry)
    requires Distinct(rows)
    ensures Distinct(AddTo(rows, e))
  {
    hide Keys;
    if rows == [] {
      NoKeys();
      assert [Row(e.key, 1, e.log.cost)][1..] == [];
    } else if rows[0].key != e.key {
      AddToDistinct(rows[1..], e);
      AddToKeys(rows[1..], e);
    }
  }

  lemma NoKeys()
    ensures Keys([]) == {}
  {
  }

  lemma {:induction false} AddToCosts(rows: seq<Row>, e: Entry)
    requires 0 <= e.log.cost && forall r :: r in rows ==> 0 <= r.cost
    ensures forall r :: r in AddTo(rows, e) ==> 0 <= r.cost
  {
    if rows != [] { AddToCosts(rows[1..], e); }
  }

  /** One row a key, and no row costs less than nothing. */
  lemma {:induction false} GroupsDistinct(entries: seq<Entry>, org: int, start: int, end: int)
    requires forall e :: e in entries ==> 0 <= e.log.cost
    ensures Distinct(GroupRows(entries, org, start, end))
    ensures forall r :: r in GroupRows(entries, org, start, end) ==> 0 <= r.cost
  {
    if entries != [] {
      var rest, e := entries[..|entries| - 1], entries[|entries| - 1];
      GroupsDistinct(rest, org, start, end);
      AddToDistinct(GroupRows(rest, org, start, end), e);
      AddToCosts(GroupRows(rest, org, start, end), e);
    }
  }

  /** The entries of the span with this key that succeeded or cost something: how many, and their cost. */
  function Requests(entries: seq<Entry>, org: int, start: int, end: int, k: Key): nat {
    if entries == [] then 0
    else
      var e := entries[|entries| - 1];
      Requests(entries[..|entries| - 1], org, start, end, k)
          + if e.log.org == org && start <= e.log.createdAt < end && e.key == k && (e.status == 200 || e.log.cost > 0)
            then 1 else 0
  }

  function CostOf(entries: seq<Entry>, org: int, start: int, end: int, k: Key): int {
    if entries == [] then 0
    else
      var e := entries[|entries| - 1];
      CostOf(entries[..|entries| - 1], org, start, end, k)
          + if e.log.org == org && start <= e.log.createdAt < end && e.key == k then e.log.cost else 0
  }

  predicate RowsAre(rows: seq<Row>, k: Key, requests: nat, cost: int) {
    if k in Keys(rows) then forall r :: r in rows && r.key == k ==> r.requests == requests && r.cost == cost
    else requests == 0 && cost == 0
  }

  lemma RowsAreCons(r: Row, rows: seq<Row>, k: Key, requests: nat, cost: int)
    ensures r.key != k ==> (RowsAre([r] + rows, k, requests, cost) <==> RowsAre(rows, k, requests, cost))
    ensures r.key == k && k !in Keys(rows) ==>
              (RowsAre([r] + rows, k, requests, cost) <==> r.requests == requests && r.cost == cost)
  {
    KeysCons(r, rows);
    assert forall x :: x in [r] + rows <==> x == r || x in rows;
  }

  lemma {:induction false} AddToRows(rows: seq<Row>, e: Entry, k: Key, requests: nat, cost: int)
    requires Distinct(rows) && RowsAre(rows, k, requests, cost)
    ensures if e.key == k then RowsAre(AddTo(rows, e), k, requests + 1, cost + e.log.cost)
            else RowsAre(AddTo(rows, e), k, requests, cost)
  {
    hide Keys, RowsAre;
    if rows == [] {
      NoRows(e, k, requests, cost);
    } else {
      var r, rest := rows[0], rows[1..];
      assert rows == [r] + rest;
      RowsAreCons(r, rest, k, requests, cost);
      if r.key == e.key {
        var grown := Row(e.key, r.requests + 1, r.cost + e.log.cost);
        RowsAreCons(grown, rest, k, requests + 1, cost + e.log.cost);
        RowsAreCons(grown, rest, k, requests, cost);
      } else {
        AddToKeys(rest, e);
        RowsAreCons(r, AddTo(rest, e), k, requests, cost);
        RowsAreCons(r, AddTo(rest, e), k, requests + 1, cost + e.log.cost);
        if r.key != k { AddToRows(rest, e, k, requests, cost); }
      }
    }
  }

  lemma NoRows(e: Entry, k: Key, requests: nat, cost: int)
    requires RowsAre([], k, requests, cost)
    ensures if e.key == k then RowsAre([Row(e.key, 1, e.log.cost)], k, requests + 1, cost + e.log.cost)
            else RowsAre([Row(e.key, 1, e.log.cost)], k, requests, cost)
  {
    assert Keys([]) == {};
    assert Keys([Row(e.key, 1, e.log.cost)]) == {e.key};
  }

  /** There is a row for exactly the keys some listed entry has; it counts these and adds up their cost. */
  lemma {:induction false} GroupExact(entries: seq<Entry>, org: int, start: int, end: int, k: Key)
    requires forall e :: e in entries ==> 0 <= e.log.cost
    ensures var requests, cost := Requests(entries, org, start, end, k), CostOf(entries, org, start, end, k);
            && RowsAre(GroupRows(entries, org, start, end), k, requests, cost)
            && (k in Keys(GroupRows(entries, org, start, end)) <==> requests > 0)
  {
    hide Keys, AddTo, Distinct, RowsAre;
    if entries == [] {
      NoRowsYet(k);
    } else {
      var rest, e := entries[..|entries| - 1], entries[|entries| - 1];
      GroupExact(rest, org, start, end, k);
      GroupsDistinct(rest, org, start, end);
      AddToKeys(GroupRows(rest, org, start, end), e);
      AddToRows(GroupRows(rest, org, start, end), e, k, Requests(rest, org, start, end, k),
                CostOf(rest, org, start, end, k));
    }
  }

  lemma NoRowsYet(k: Key)
    ensures RowsAre([], k, 0, 0) && k !in Keys([])
  {
  }

  /** The first rows are shown: as many as asked for, 500 when nothing is, 2000 at most. */
  lemma ShownExact(ordered: seq<Row>, limit: int)
    ensures var n := if limit <= 0 then 500 else if limit > 2000 then 2000 else limit;
            Shown(ordered, limit) == ordered[..if |ordered| < n then |ordered| else n]
  {
  }

  /** The order of the rows does not matter to their sum. */
  lemma {:induction false} SameRowsSameCost(xs: seq<Row>, ys: seq<Row>)
    requires multiset(xs) == multiset(ys)
    ensures RowsCost(xs) == RowsCost(ys)
    decreases |xs|
  {
    hide RowsCost;
    if xs == [] {
      assert |multiset(ys)| == 0;
      assert ys == [];
    } else {
      var x, rest := xs[|xs| - 1], xs[..|xs| - 1];
      assert xs == rest + [x];
      assert x in multiset(ys);
      var k :| 0 <= k < |ys| && ys[k] == x;
      Removed(ys, k);
      assert multiset(xs) == multiset(rest) + multiset{x};
      assert multiset(rest) == multiset(xs) - multiset{x};
      SameRowsSameCost(rest, ys[..k] + ys[k + 1..]);
      RowsCostAppend(rest, [x]);
    }
  }

  lemma Removed(ys: seq<Row>, k: nat)
    requires k < |ys|
    ensures multiset(ys) == multiset(ys[..k] + ys[k + 1..]) + multiset{ys[k]}
    ensures RowsCost(ys) == RowsCost(ys[..k] + ys[k + 1..]) + RowsCost([ys[k]])
  {
    hide RowsCost;
    assert ys == ys[..k] + [ys[k]] + ys[k + 1..];
    RowsCostAppend(ys[..k], ys[k + 1..]);
    RowsCostAppend(ys[..k] + [ys[k]], ys[k + 1..]);
    RowsCostAppend(ys[..k], [ys[k]]);
  }

  lemma {:induction false} NoCost(rows: seq<Row>)
    requires forall r :: r in rows ==> 0 <= r.cost
    ensures 0 <= RowsCost(rows)
    ensures RowsCost(rows) == 0 <==> forall r :: r in rows ==> r.cost == 0
  {
    if rows != [] {
      NoCost(rows[..|rows| - 1]);
      assert rows == rows[..|rows| - 1] + [rows[|rows| - 1]];
    }
  }

  /** The listed rows add up to at most the month's consumption, and to exactly that if and only if
      every row cut off by the limit cost nothing; in particular when nothing is cut off. */
  lemma DetailReconciles(entries: seq<Entry>, org: int, start: int, end: int, ordered: seq<Row>, limit: int)
    requires forall e :: e in entries ==> 0 <= e.log.cost
    requires multiset(ordered) == multiset(GroupRows(entries, org, start, end))
    ensures var shown := Shown(ordered, limit);
            var cut := ordered[|shown|..];
            && RowsCost(shown) <= Consumption(entries, org, start, end)
            && (RowsCost(shown) == Consumption(entries, org, start, end) <==> forall r :: r in cut ==> r.cost == 0)
            && (|GroupRows(entries, org, start, end)| <= ClampLimit(limit) ==> cut == [])
  {
    hide GroupRows, RowsCost, Consumption, Distinct;
    var rows, shown := GroupRows(entries, org, start, end), Shown(ordered, limit);
    var cut := ordered[|shown|..];
    assert ordered == shown + cut;
    GroupsCoverConsumption(entries, org, start, end);
    SameRowsSameCost(ordered, rows);
    RowsCostAppend(shown, cut);
    GroupsDistinct(entries, org, start, end);
    forall r | r in cut ensures 0 <= r.cost {
      assert r in multiset(ordered);
      assert r in multiset(rows);
    }
    NoCost(cut);
    assert |multiset(ordered)| == |ordered| && |multiset(rows)| == |rows|;
  }

  // ---- The detail and the balances ----

  function LogsOf(entries: seq<Entry>): (logs: seq<Log>)
    ensures |logs| == |entries|
  {
    seq(|entries|, i requires 0 <= i < |entries| => entries[i].log)
  }

  lemma {:induction false} ConsumptionIsSum(entries: seq<Entry>, org: int, start: int, end: int)
    ensures Consumption(entries, org, start, end) == Sum(Span(org, start, end), LogsOf(entries))
  {
    if entries != [] {
      ConsumptionIsSum(entries[..|entries| - 1], org, start, end);
      assert LogsOf(entries)[..|entries| - 1] == LogsOf(entries[..|entries| - 1]);
    }
  }

  /** In every reachable state: if both balances were taken after their months and none of the month
      has been archived, the detail rows add up to closing minus opening exactly when the rows cut off
      by the limit cost nothing; in particular when none is cut off. */
  lemma DetailIsTheMovement(ss: seq<BookStep>, now: int, month: nat, start: int -> int, org: int, period: int,
                            entries: seq<Entry>, ordered: seq<Row>, limit: int)
    requires Increasing(start)
    requires LawfulTurns(Book(World(EMPTY, now, month), map[], None), ss, start)
    requires var b := Turns(Book(World(EMPTY, now, month), map[], None), ss, start);
             && org in b.world.db.orgs && TakenInTime(b, org, period - 1, start) && TakenInTime(b, org, period, start)
             && LogsOf(entries) == b.world.db.logs
             && Sum(Span(org, start(period), start(period + 1)), b.world.db.purged) == 0
    requires multiset(ordered) == multiset(GroupRows(entries, org, start(period), start(period + 1)))
    ensures var b := Turns(Book(World(EMPTY, now, month), map[], None), ss, start);
            var s := BuildStatement(b, org, period, start).value;
            var cut := ordered[|Shown(ordered, limit)|..];
            && (RowsCost(Shown(ordered, limit)) == s.closing - s.opening.value <==>
                  forall r :: r in cut ==> r.cost == 0)
            && (|GroupRows(entries, org, start(period), start(period + 1))| <= ClampLimit(limit) ==> cut == [])
  {
    hide Turns, LawfulTurns, Sum, GroupRows, RowsCost, Consumption, BuildStatement;
    var b0 := Book(World(EMPTY, now, month), map[], None);
    var b := Turns(b0, ss, start);
    StatementsReconcile(ss, now, month, start, org, period);
    EmptySound(now, month);
    TurnsKept(b0, ss, start);
    forall e | e in entries ensures 0 <= e.log.cost {
      var i :| 0 <= i < |entries| && entries[i] == e;
      assert LogsOf(entries)[i] == e.log;
      assert e.log in b.world.db.logs;
    }
    DetailReconciles(entries, org, start(period), start(period + 1), ordered, limit);
    ConsumptionIsSum(entries, org, start(period), start(period + 1));
  }
}
