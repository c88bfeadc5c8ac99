/** The monthly figures against the time stamps of the log, which are all that is stored with a row
    (internal/service/quota.go). */
module LedgerMonths {
  import opened Ledger
  import opened LedgerBooks
  import opened LedgerRuns

  predicate InItsMonth(now: int, month: int, start: int -> int) { start(month) <= now < start(month + 1) }

  /** The clock and the month it shows go together. */
  predicate TicksInMonth(steps: seq<Step>, start: int -> int) {
    forall i :: 0 <= i < |steps| && steps[i].Tick? ==> InItsMonth(steps[i].now, steps[i].month, start)
  }

  /** Every row was charged to the month of its stamp. */
  predicate StampedInMonth(logs: seq<Log>, start: int -> int) {
    forall l :: l in logs ==> InItsMonth(l.createdAt, l.period, start)
  }

  ghost predicate Stamps(w: World, start: int -> int) {
    InItsMonth(w.now, w.month, start) && StampedInMonth(w.db.logs, start) && StampedInMonth(w.db.purged, start)
  }

  lemma {:induction false} StartMono(start: int -> int, p: int, q: int)
    requires Increasing(start) && p <= q
    ensures start(p) <= start(q)
    decreases q - p
  {
    if p < q { StartMono(start, p, q - 1); }
  }

  /** A moment is in one month only. */
  lemma OneMonth(at: int, p: int, q: int, start: int -> int)
    requires Increasing(start) && InItsMonth(at, p, start)
    ensures InItsMonth(at, q, start) <==> p == q
  {
    if p < q { StartMono(start, p + 1, q); }
    if q < p { StartMono(start, q + 1, p); }
  }

  lemma {:induction false} SumByStamp(s: Subject, p: int, logs: seq<Log>, start: int -> int)
    requires Increasing(start) && StampedInMonth(logs, start)
    ensures Sum(InMonth(s, p), logs) == Sum(Stamped(s, start(p), start(p + 1)), logs)
  {
    if logs != [] {
      var rest, l := logs[..|logs| - 1], logs[|logs| - 1];
      SumByStamp(s, p, rest, start);
      OneMonth(l.createdAt, l.period, p, start);
    }
  }

  lemma StepStamps(w: World, step: Step, start: int -> int)
    requires Stamps(w, start) && (step.Tick? ==> InItsMonth(step.now, step.month, start))
    ensures Stamps(After(w, step), start)
  {
    LogEffect(w, step);
    hide Transact, Lawful;
    if step.MoveToArchive? {
      PartExact(w.db.logs, step.start, step.end, true);
      PartExact(w.db.logs, step.start, step.end, false);
    }
  }

  lemma {:induction false} RunStamps(w: World, steps: seq<Step>, start: int -> int)
    requires Stamps(w, start) && TicksInMonth(steps, start)
    ensures Stamps(Run(w, steps), start)
    decreases |steps|
  {
    hide Stamps, After;
    if steps != [] {
      StepStamps(w, steps[0], start);
      RunStamps(After(w, steps[0]), steps[1..], start);
    }
  }

  /** Over every run in which the month shown is that of the clock: for every account, the monthly
      figure stored, and the one admission looks at, are the sums of what is stamped in their month. */
  lemma MonthlyFigureByStamp(steps: seq<Step>, now: int, month: nat, start: int -> int, s: Subject)
    requires Increasing(start) && LawfulRun(World(EMPTY, now, month), steps)
    requires InItsMonth(now, month, start) && TicksInMonth(steps, start)
    requires Exists(Run(World(EMPTY, now, month), steps).db, s)
    ensures var w := Run(World(EMPTY, now, month), steps);
            var a := AccountOf(w.db, s);
            && a.monthlyCost
               == Total(Stamped(s, start(a.monthlyPeriod), start(a.monthlyPeriod + 1)), w.db)
            && MonthlyCost(a, w.month) == Total(Stamped(s, start(w.month), start(w.month + 1)), w.db)
  {
    hide Run, LawfulRun, Sum, Sound, Stamps, Increasing, TicksInMonth, InItsMonth, Total, MonthlyCost;
    EmptySound(now, month);
    EmptyStamps(now, month, start);
    RunSound(World(EMPTY, now, month), steps);
    RunStamps(World(EMPTY, now, month), steps, start);
    FiguresByStamp(Run(World(EMPTY, now, month), steps), start, s);
  }

  lemma EmptyStamps(now: int, month: nat, start: int -> int)
    requires InItsMonth(now, month, start)
    ensures Stamps(World(EMPTY, now, month), start)
  {
  }

  lemma FiguresByStamp(w: World, start: int -> int, s: Subject)
    requires Increasing(start) && Sound(w) && Stamps(w, start) && Exists(w.db, s)
    ensures var a := AccountOf(w.db, s);
            && a.monthlyCost
               == Total(Stamped(s, start(a.monthlyPeriod), start(a.monthlyPeriod + 1)), w.db)
            && MonthlyCost(a, w.month) == Total(Stamped(s, start(w.month), start(w.month + 1)), w.db)
  {
    hide Sum, Booked, ClaimsOnce, TasksOnce, ArrearsJustified, StampedInMonth, InItsMonth;
    MonthlyCostExact(w.db, s, w.month);
    assert MeteredFor(w.db, s);
    var p := AccountOf(w.db, s).monthlyPeriod;
    SumByStamp(s, p, w.db.logs, start);
    SumByStamp(s, p, w.db.purged, start);
    SumByStamp(s, w.month, w.db.logs, start);
    SumByStamp(s, w.month, w.db.purged, start);
  }

  /** A row stamped outside the month it was charged to parts the two figures of that month exactly when
      it cost something. */
  lemma StampedElsewhere(db: Db, l: Log, s: Subject, start: int -> int)
    requires Of(s, l) && !InItsMonth(l.createdAt, l.period, start)
    requires Total(InMonth(s, l.period), db) == Total(Stamped(s, start(l.period), start(l.period + 1)), db)
    ensures var db' := db.(logs := db.logs + [l]);
            Total(InMonth(s, l.period), db') == Total(Stamped(s, start(l.period), start(l.period + 1)), db')
            <==> l.cost == 0
  {
    hide Sum;
    SumSnoc(InMonth(s, l.period), db.logs, l);
    SumSnoc(Stamped(s, start(l.period), start(l.period + 1)), db.logs, l);
  }
}
