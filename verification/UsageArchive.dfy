/** Moving old usage rows to files, month by month (internal/service/archive.go). */
module UsageArchive {
  const BATCH: nat := 500

  datatype Row = Row(id: int, createdAt: int)

  predicate InMonth(r: Row, start: int, end: int) { start <= r.createdAt < end }

  /** A table in primary-key order. */
  predicate Keyed(rows: seq<Row>) {
    && (forall i, j :: 0 <= i < j < |rows| ==> rows[i].id < rows[j].id)
    && (forall i :: 0 <= i < |rows| ==> rows[i].id > 0)
  }

  // ---- Paging ----

  /** The rows of a month above an identifier, in order. */
  function Matching(rows: seq<Row>, start: int, end: int, lastId: int): seq<Row> {
    if rows == [] then []
    else
      var rest, r := Matching(rows[..|rows| - 1], start, end, lastId), rows[|rows| - 1];
      if InMonth(r, start, end) && r.id > lastId then rest + [r] else rest
  }

  /** One query: at most BATCH of them. */
  function Page(rows: seq<Row>, start: int, end: int, lastId: int): seq<Row> {
    var m := Matching(rows, start, end, lastId);
    if |m| <= BATCH then m else m[..BATCH]
  }

  /** The table without the rows of the month up to an identifier. */
  function Without(rows: seq<Row>, start: int, end: int, upTo: int): seq<Row> {
    if rows == [] then []
    else
      var rest, r := Without(rows[..|rows| - 1], start, end, upTo), rows[|rows| - 1];
      if InMonth(r, start, end) && r.id <= upTo then rest else rest + [r]
  }

  function OtherMonths(rows: seq<Row>, start: int, end: int): seq<Row> {
    if rows == [] then []
    else
      var rest, r := OtherMonths(rows[..|rows| - 1], start, end), rows[|rows| - 1];
      if InMonth(r, start, end) then rest else rest + [r]
  }

  lemma {:induction false} MatchingKeyed(rows: seq<Row>, start: int, end: int, lastId: int)
    requires Keyed(rows)
    ensures Keyed(Matching(rows, start, end, lastId))
    ensures forall r ::
      r in Matching(rows, start, end, lastId) <==> r in rows && InMonth(r, start, end) && r.id > lastId
  {
    if rows != [] {
      var rest := Matching(rows[..|rows| - 1], start, end, lastId);
      MatchingKeyed(rows[..|rows| - 1], start, end, lastId);
      assert rows == rows[..|rows| - 1] + [rows[|rows| - 1]];
      forall i | 0 <= i < |rest| ensures rest[i].id < rows[|rows| - 1].id { assert rest[i] in rest; }
    }
  }

  lemma {:induction false} OthersKeyed(rows: seq<Row>, start: int, end: int)
    requires Keyed(rows)
    ensures Keyed(OtherMonths(rows, start, end))
    ensures forall r :: r in OtherMonths(rows, start, end) <==> r in rows && !(start <= r.createdAt < end)
  {
    if rows != [] {
      var rest := OtherMonths(rows[..|rows| - 1], start, end);
      OthersKeyed(rows[..|rows| - 1], start, end);
      assert rows == rows[..|rows| - 1] + [rows[|rows| - 1]];
      forall i | 0 <= i < |rest| ensures rest[i].id < rows[|rows| - 1].id { assert rest[i] in rest; }
    }
  }

  /** Going on above the last identifier of a page leaves exactly what the page left. */
  lemma {:induction false} AboveLast(rows: seq<Row>, start: int, end: int, lastId: int, k: nat)
    requires Keyed(rows) && 0 < k <= |Matching(rows, start, end, lastId)|
    ensures var m := Matching(rows, start, end, lastId); Matching(rows, start, end, m[k - 1].id) == m[k..]
  {
    hide Keyed;
    var rest, r := rows[..|rows| - 1], rows[|rows| - 1];
    var m, mr := Matching(rows, start, end, lastId), Matching(rest, start, end, lastId);
    KeyedRest(rows);
    MatchingKeyed(rest, start, end, lastId);
    if k <= |mr| {
      AboveLast(rest, start, end, lastId, k);
      assert mr[k - 1] in mr;
      assert m[k - 1] == mr[k - 1];
      assert m[k..] == if InMonth(r, start, end) && r.id > lastId then mr[k..] + [r] else mr[k..];
    } else {
      NothingAbove(rest, start, end, r.id);
    }
  }

  lemma KeyedRest(rows: seq<Row>)
    requires Keyed(rows) && rows != []
    ensures Keyed(rows[..|rows| - 1]) && forall r :: r in rows[..|rows| - 1] ==> r.id < rows[|rows| - 1].id
  {
  }

  lemma {:induction false} NothingAbove(rows: seq<Row>, start: int, end: int, lastId: int)
    requires forall r :: r in rows ==> r.id <= lastId
    ensures Matching(rows, start, end, lastId) == []
  {
    if rows != [] { NothingAbove(rows[..|rows| - 1], start, end, lastId); }
  }

  /** Writes each row of the month exactly once, in order. */
  method ExportMonth(rows: seq<Row>, start: int, end: int) returns (file: seq<Row>)
    requires Keyed(rows)
    ensures file == Matching(rows, start, end, 0)
    ensures Keyed(file) && forall r :: r in file <==> r in rows && start <= r.createdAt < end
  {
    MatchingKeyed(rows, start, end, 0);
    file := [];
    var lastId := 0;
    while true
      invariant file + Matching(rows, start, end, lastId) == Matching(rows, start, end, 0)
      decreases |Matching(rows, start, end, lastId)|
    {
      ghost var left := Matching(rows, start, end, lastId);
      var page := Page(rows, start, end, lastId);
      if |page| == 0 { break; }
      AboveLast(rows, start, end, lastId, |page|);
      assert page + left[|page|..] == left;
      file := file + page;
      lastId := page[|page| - 1].id;
      if |page| < BATCH { break; }
    }
  }

  /** Deletes in batches until none of the month is left; other months are not touched. */
  method DeleteUsageRange(rows: seq<Row>, start: int, end: int) returns (left: seq<Row>, deleted: nat)
    requires Keyed(rows)
    ensures left == OtherMonths(rows, start, end)
    ensures Keyed(left) && forall r :: r in left <==> r in rows && !(start <= r.createdAt < end)
    ensures deleted == |Matching(rows, start, end, 0)|
  {
    OthersKeyed(rows, start, end);
    left, deleted := rows, 0;
    var lastId := 0;
    NothingBelow(rows, start, end, 0);
    while true
      invariant left == Without(rows, start, end, lastId)
      invariant deleted + |Matching(rows, start, end, lastId)| == |Matching(rows, start, end, 0)|
      decreases |Matching(rows, start, end, lastId)|
    {
      StillMatching(rows, start, end, lastId);
      var page := Page(left, start, end, lastId);
      if |page| == 0 {
        AllGone(rows, start, end, lastId);
        return;
      }
      assert page == Matching(rows, start, end, lastId)[..|page|];
      AboveLast(rows, start, end, lastId, |page|);
      BatchDeleted(rows, start, end, lastId, |page|);
      left := DeleteIds(left, page);
      deleted := deleted + |page|;
      lastId := page[|page| - 1].id;
    }
  }

  function DeleteIds(rows: seq<Row>, page: seq<Row>): seq<Row> {
    if rows == [] then []
    else
      var rest, r := DeleteIds(rows[..|rows| - 1], page), rows[|rows| - 1];
      if exists i :: 0 <= i < |page| && page[i].id == r.id then rest else rest + [r]
  }

  lemma {:induction false} NothingBelow(rows: seq<Row>, start: int, end: int, upTo: int)
    requires forall i :: 0 <= i < |rows| ==> rows[i].id > upTo
    ensures Without(rows, start, end, upTo) == rows
  {
    if rows != [] { NothingBelow(rows[..|rows| - 1], start, end, upTo); }
  }

  lemma {:induction false} StillMatching(rows: seq<Row>, start: int, end: int, lastId: int)
    ensures Matching(Without(rows, start, end, lastId), start, end, lastId) == Matching(rows, start, end, lastId)
  {
    if rows != [] {
      var rest := rows[..|rows| - 1];
      StillMatching(rest, start, end, lastId);
      var w := Without(rest, start, end, lastId);
      assert (w + [rows[|rows| - 1]])[..|w|] == w;
    }
  }

  lemma {:induction false} AllGone(rows: seq<Row>, start: int, end: int, lastId: int)
    requires Matching(rows, start, end, lastId) == []
    ensures Without(rows, start, end, lastId) == OtherMonths(rows, start, end)
  {
    if rows != [] { AllGone(rows[..|rows| - 1], start, end, lastId); }
  }

  /** Deleting the identifiers of a page is going on to its last identifier. */
  lemma BatchDeleted(rows: seq<Row>, start: int, end: int, lastId: int, k: nat)
    requires Keyed(rows) && 0 < k <= |Matching(rows, start, end, lastId)|
    ensures var m := Matching(rows, start, end, lastId);
            DeleteIds(Without(rows, start, end, lastId), m[..k]) == Without(rows, start, end, m[k - 1].id)
  {
    var m := Matching(rows, start, end, lastId);
    MatchingKeyed(rows, start, end, lastId);
    forall r | r in rows
      ensures (exists i :: 0 <= i < k && m[..k][i].id == r.id)
          <==> InMonth(r, start, end) && lastId < r.id <= m[k - 1].id {
      if InMonth(r, start, end) && lastId < r.id <= m[k - 1].id {
        assert r in m;
        var i :| 0 <= i < |m| && m[i] == r;
        assert i < k;
        assert m[..k][i].id == r.id;
      }
      if i :| 0 <= i < k && m[..k][i].id == r.id {
        assert m[i] in m && m[i] in rows;
        SameRow(rows, r, m[i]);
      }
    }
    DeleteWithout(rows, start, end, lastId, m[..k], m[k - 1].id);
  }

  lemma SameRow(rows: seq<Row>, a: Row, b: Row)
    requires Keyed(rows) && a in rows && b in rows && a.id == b.id
    ensures a == b
  {
  }

  lemma {:induction false} DeleteWithout(rows: seq<Row>, start: int, end: int, lastId: int, page: seq<Row>, upTo: int)
    requires lastId <= upTo
    requires forall r :: r in rows ==>
      ((exists i :: 0 <= i < |page| && page[i].id == r.id) <==> InMonth(r, start, end) && lastId < r.id <= upTo)
    ensures DeleteIds(Without(rows, start, end, lastId), page) == Without(rows, start, end, upTo)
  {
    if rows != [] {
      var rest, r := rows[..|rows| - 1], rows[|rows| - 1];
      DeleteWithout(rest, start, end, lastId, page, upTo);
      var w := Without(rest, start, end, lastId);
      assert r in rows;
      assert (w + [r])[..|w|] == w;
    }
  }

  // ---- Crashes ----

  datatype Phase = Idle | Exporting(month: int, count: nat) | Deleting(month: int)

  /** The table, the finished files and unfinished temporaries by month, where the archiver stands,
      and every row ever inserted. */
  datatype Disk = Disk(table: set<Row>, files: map<int, set<Row>>, temps: map<int, set<Row>>, phase: Phase,
                       ever: set<Row>)

  /** The archiver is stopped and started at any point by Crash; the rest of a step takes effect at
      once. A file is read back as one line a row. */
  datatype Step =
    | Insert(row: Row)
    | Begin(month: int)
    | Write(rows: set<Row>)
    | CheckAndRename
    | DeleteBatch(rows: set<Row>)
    | EndDelete
    | Crash

  function Of(rows: set<Row>, month: int, monthOf: Row -> int): set<Row> {
    set r | r in rows && monthOf(r) == month
  }

  function Next(d: Disk, step: Step, monthOf: Row -> int): Disk {
    match step
    case Insert(row) => d.(table := d.table + {row}, ever := d.ever + {row})
    case Begin(m) =>
      if !d.phase.Idle? || Of(d.table, m, monthOf) == {} then d
      else
        var count := |Of(d.table, m, monthOf)|;
        if m in d.files && |d.files[m]| >= count then d.(phase := Deleting(m))
        else d.(phase := Exporting(m, count), temps := d.temps[m := {}])
    case Write(rows) =>
      if !d.phase.Exporting? || d.phase.month !in d.temps then d
      else
        var m := d.phase.month;
        d.(temps := d.temps[m := d.temps[m] + rows * Of(d.table, m, monthOf)])
    case CheckAndRename =>
      if !d.phase.Exporting? || d.phase.month !in d.temps then d
      else
        var m := d.phase.month;
        if |d.temps[m]| != d.phase.count then d.(phase := Idle, temps := d.temps - {m})
        else d.(phase := Deleting(m), files := d.files[m := d.temps[m]], temps := d.temps - {m})
    case DeleteBatch(rows) =>
      if !d.phase.Deleting? then d else d.(table := d.table - rows * Of(d.table, d.phase.month, monthOf))
    case EndDelete => if d.phase.Deleting? then d.(phase := Idle) else d
    case Crash => d.(phase := Idle)
  }

  /** A month the archiver has reached gets no more rows. */
  predicate Lawful(d: Disk, step: Step, monthOf: Row -> int) {
    step.Insert? ==>
      && step.row !in d.ever && monthOf(step.row) !in d.files
      && (d.phase.Exporting? || d.phase.Deleting? ==> d.phase.month != monthOf(step.row))
  }

  function Run(d: Disk, steps: seq<Step>, monthOf: Row -> int): Disk
    decreases |steps|
  {
    if steps == [] then d else Run(Next(d, steps[0], monthOf), steps[1..], monthOf)
  }

  predicate LawfulRun(d: Disk, steps: seq<Step>, monthOf: Row -> int)
    decreases |steps|
  {
    steps == [] || (Lawful(d, steps[0], monthOf) && LawfulRun(Next(d, steps[0], monthOf), steps[1..], monthOf))
  }

  ghost predicate Kept(d: Disk, monthOf: Row -> int) {
    && d.table <= d.ever
    && (forall r :: r in d.ever && monthOf(r) !in d.files ==> r in d.table)
    && (forall r :: r in d.ever && monthOf(r) in d.files ==> r in d.files[monthOf(r)])
    && (d.phase.Deleting? ==> d.phase.month in d.files)
    && (d.phase.Exporting? ==>
          var m := d.phase.month;
          && m !in d.files && d.phase.count == |Of(d.table, m, monthOf)|
          && (m in d.temps ==> d.temps[m] <= Of(d.table, m, monthOf)))
  }

  lemma {:induction false} SameSize<T>(a: set<T>, b: set<T>)
    requires a <= b
    ensures |a| <= |b| && (|a| == |b| ==> a == b)
  {
    if a != {} {
      var x :| x in a;
      SameSize(a - {x}, b - {x});
      assert a == (a - {x}) + {x} && b == (b - {x}) + {x};
    }
  }

  lemma BeginKept(d: Disk, m: int, monthOf: Row -> int)
    requires Kept(d, monthOf)
    ensures Kept(Next(d, Begin(m), monthOf), monthOf)
  {
    if m in d.files {
      assert Of(d.table, m, monthOf) <= d.files[m];
      SameSize(Of(d.table, m, monthOf), d.files[m]);
    }
  }

  lemma StepKept(d: Disk, step: Step, monthOf: Row -> int)
    requires Kept(d, monthOf) && Lawful(d, step, monthOf)
    ensures Kept(Next(d, step, monthOf), monthOf)
  {
    match step {
      case Begin(m) => BeginKept(d, m, monthOf);
      case Insert(row) =>
        if d.phase.Exporting? {
          assert Of(d.table + {row}, d.phase.month, monthOf) == Of(d.table, d.phase.month, monthOf);
        }
      case CheckAndRename =>
        if d.phase.Exporting? && d.phase.month in d.temps {
          SameSize(d.temps[d.phase.month], Of(d.table, d.phase.month, monthOf));
        }
      case _ =>
    }
  }

  lemma {:induction false} RunKept(d: Disk, steps: seq<Step>, monthOf: Row -> int)
    requires Kept(d, monthOf) && LawfulRun(d, steps, monthOf)
    ensures Kept(Run(d, steps, monthOf), monthOf)
    decreases |steps|
  {
    hide Kept, Lawful, Next;
    if steps != [] {
      StepKept(d, steps[0], monthOf);
      RunKept(Next(d, steps[0], monthOf), steps[1..], monthOf);
    }
  }

  /** Whatever is written, wherever the archiver crashes, however often it is rerun: every row ever
      inserted is in the table or in the finished file of its month. */
  lemma NoRowLost(steps: seq<Step>, monthOf: Row -> int)
    requires LawfulRun(Disk({}, map[], map[], Idle, {}), steps, monthOf)
    ensures var d := Run(Disk({}, map[], map[], Idle, {}), steps, monthOf);
            forall r :: r in d.ever ==> r in d.table || (monthOf(r) in d.files && r in d.files[monthOf(r)])
  {
    RunKept(Disk({}, map[], map[], Idle, {}), steps, monthOf);
  }

  // ---- Late rows ----

  function FileOf(d: Disk, m: int): set<Row> {
    if m in d.files then d.files[m] else {}
  }

  /** The rows of a month, wherever they are. */
  function Held(d: Disk, m: int, monthOf: Row -> int): set<Row> {
    Of(d.table, m, monthOf) + FileOf(d, m)
  }

  predicate Nested(a: set<Row>, b: set<Row>) { a <= b || b <= a }

  /** An undisturbed pass over a month. */
  function Pass(m: int, rows: set<Row>): seq<Step> {
    [Begin(m), Write(rows), CheckAndRename, DeleteBatch(rows), EndDelete]
  }

  lemma RunPass(d: Disk, m: int, rows: set<Row>, monthOf: Row -> int)
    ensures Run(d, Pass(m, rows), monthOf)
         == Next(Next(Next(Next(Next(d, Begin(m), monthOf), Write(rows), monthOf), CheckAndRename, monthOf),
                      DeleteBatch(rows), monthOf), EndDelete, monthOf)
  {
    hide Next;
    var s := Pass(m, rows);
    var s1, s2, s3, s4 := s[1..], s[2..], s[3..], s[4..];
    assert s1[1..] == s2 && s2[1..] == s3 && s3[1..] == s4 && s4[1..] == [];
    var d1 := Next(d, s[0], monthOf);
    var d2 := Next(d1, s1[0], monthOf);
    var d3 := Next(d2, s2[0], monthOf);
    var d4 := Next(d3, s3[0], monthOf);
    assert Run(d, s, monthOf) == Run(d1, s1, monthOf) == Run(d2, s2, monthOf) == Run(d3, s3, monthOf);
    assert Run(d3, s3, monthOf) == Run(d4, s4, monthOf) == Run(Next(d4, s4[0], monthOf), [], monthOf);
  }

  lemma OfMinus(table: set<Row>, rows: set<Row>, m': int, m: int, monthOf: Row -> int)
    ensures Of(table - rows * Of(table, m', monthOf), m, monthOf)
         == if m' == m then Of(table, m, monthOf) - rows else Of(table, m, monthOf)
  {
  }

  /** The first three steps. */
  function Prepared(d: Disk, m: int, rows: set<Row>, monthOf: Row -> int): Disk {
    Next(Next(Next(d, Begin(m), monthOf), Write(rows), monthOf), CheckAndRename, monthOf)
  }

  lemma ExportLeaves(d: Disk, m: int, rows: set<Row>, monthOf: Row -> int)
    requires var t := Of(d.table, m, monthOf);
             d.phase.Idle? && t <= rows && t != {} && !(m in d.files && |d.files[m]| >= |t|)
    ensures var t := Of(d.table, m, monthOf);
            var d3 := Prepared(d, m, rows, monthOf);
            d3.phase == Deleting(m) && d3.table == d.table && m in d3.files && d3.files[m] == t
  {
    var t := Of(d.table, m, monthOf);
    hide Of;
    assert rows * t == t && {} + t == t;
    var d2 := Next(Next(d, Begin(m), monthOf), Write(rows), monthOf);
    assert d2.temps[m] == t;
  }

  lemma OldFileStays(d: Disk, m: int, rows: set<Row>, monthOf: Row -> int)
    requires d.phase.Idle? && Of(d.table, m, monthOf) != {}
    requires m in d.files && |d.files[m]| >= |Of(d.table, m, monthOf)|
    ensures Prepared(d, m, rows, monthOf) == d.(phase := Deleting(m))
  {
    hide Of;
  }

  lemma FinishLeaves(d: Disk, m: int, rows: set<Row>, monthOf: Row -> int)
    requires d.phase == Deleting(m) && Of(d.table, m, monthOf) <= rows
    ensures Held(Next(Next(d, DeleteBatch(rows), monthOf), EndDelete, monthOf), m, monthOf) == FileOf(d, m)
  {
    OfMinus(d.table, rows, m, m, monthOf);
    hide Of;
    assert Of(d.table, m, monthOf) - rows == {};
  }

  /** What a pass leaves of the month: the old file if it has at least as many lines as the table has
      rows, an export of the table otherwise. */
  lemma PassLeaves(d: Disk, m: int, rows: set<Row>, monthOf: Row -> int)
    requires d.phase.Idle? && Of(d.table, m, monthOf) <= rows
    ensures var t, f, d' := Of(d.table, m, monthOf), FileOf(d, m), Run(d, Pass(m, rows), monthOf);
            Held(d', m, monthOf) == if |f| >= |t| then f else t
  {
    var t := Of(d.table, m, monthOf);
    RunPass(d, m, rows, monthOf);
    if t == {} {
      assert Run(d, Pass(m, rows), monthOf) == d by { hide Of, Run; }
      assert {} + FileOf(d, m) == FileOf(d, m);
    } else {
      if m in d.files && |d.files[m]| >= |t| {
        OldFileStays(d, m, rows, monthOf);
      } else {
        ExportLeaves(d, m, rows, monthOf);
      }
      hide Of, Run, Next;
      FinishLeaves(Prepared(d, m, rows, monthOf), m, rows, monthOf);
    }
  }

  /** What holds of a month while nothing is inserted, if all of h is to stay. */
  ghost predicate Safe(d: Disk, m: int, h: set<Row>, monthOf: Row -> int) {
    var t, f := Of(d.table, m, monthOf), FileOf(d, m);
    && Nested(t, f) && h <= t + f
    && (d.phase == Deleting(m) ==> t <= f)
    && (d.phase.Exporting? && d.phase.month == m ==>
          f <= t && d.phase.count == |t| && (m in d.temps ==> d.temps[m] <= t))
  }

  lemma BeginSafe(d: Disk, m': int, m: int, h: set<Row>, monthOf: Row -> int)
    requires Safe(d, m, h, monthOf)
    ensures Safe(Next(d, Begin(m'), monthOf), m, h, monthOf)
  {
    var t, f := Of(d.table, m, monthOf), FileOf(d, m);
    hide Of;
    if f <= t { SameSize(f, t); }
    if t <= f { SameSize(t, f); }
  }

  lemma WriteSafe(d: Disk, rows: set<Row>, m: int, h: set<Row>, monthOf: Row -> int)
    requires Safe(d, m, h, monthOf)
    ensures Safe(Next(d, Write(rows), monthOf), m, h, monthOf)
  {
    hide Of;
  }

  lemma RenameSafe(d: Disk, m: int, h: set<Row>, monthOf: Row -> int)
    requires Safe(d, m, h, monthOf)
    ensures Safe(Next(d, CheckAndRename, monthOf), m, h, monthOf)
  {
    hide Of;
    if d.phase.Exporting? && d.phase.month == m && m in d.temps { SameSize(d.temps[m], Of(d.table, m, monthOf)); }
  }

  lemma LessNested(t: set<Row>, rows: set<Row>, f: set<Row>, h: set<Row>)
    requires t <= f && h <= t + f
    ensures t - rows <= f && Nested(t - rows, f) && h <= (t - rows) + f
  {
  }

  lemma DeleteSafe(d: Disk, rows: set<Row>, m: int, h: set<Row>, monthOf: Row -> int)
    requires Safe(d, m, h, monthOf)
    ensures Safe(Next(d, DeleteBatch(rows), monthOf), m, h, monthOf)
  {
    if d.phase.Deleting? {
      OfMinus(d.table, rows, d.phase.month, m, monthOf);
      hide Of;
      var t, f, t' := Of(d.table, m, monthOf), FileOf(d, m), Of(Next(d, DeleteBatch(rows), monthOf).table, m, monthOf);
      if d.phase.month == m {
        LessNested(t, rows, f, h);
        assert t' == t - rows;
      } else {
        assert t' == t;
      }
    }
  }

  lemma StepSafe(d: Disk, step: Step, m: int, h: set<Row>, monthOf: Row -> int)
    requires Safe(d, m, h, monthOf) && !step.Insert?
    ensures Safe(Next(d, step, monthOf), m, h, monthOf)
  {
    hide Of;
    match step {
      case Begin(m') => BeginSafe(d, m', m, h, monthOf);
      case Write(rows) => WriteSafe(d, rows, m, h, monthOf);
      case CheckAndRename => RenameSafe(d, m, h, monthOf);
      case DeleteBatch(rows) => DeleteSafe(d, rows, m, h, monthOf);
      case _ =>
    }
  }

  predicate NoInsert(steps: seq<Step>) { forall i :: 0 <= i < |steps| ==> !steps[i].Insert? }

  lemma {:induction false} RunSafe(d: Disk, steps: seq<Step>, m: int, h: set<Row>, monthOf: Row -> int)
    requires Safe(d, m, h, monthOf) && NoInsert(steps)
    ensures Safe(Run(d, steps, monthOf), m, h, monthOf)
    decreases |steps|
  {
    hide Safe, Next;
    if steps != [] {
      StepSafe(d, steps[0], m, h, monthOf);
      RunSafe(Next(d, steps[0], monthOf), steps[1..], m, h, monthOf);
    }
  }

  /** Whatever the archiver does from here, the month keeps its rows. */
  ghost predicate KeepsMonth(d: Disk, m: int, monthOf: Row -> int) {
    forall steps :: NoInsert(steps) ==> Held(d, m, monthOf) <= Held(Run(d, steps, monthOf), m, monthOf)
  }

  /** An idle archiver keeps the rows of a month, with whatever crashes and reruns, exactly when the
      table's and the file's are nested, and that already decides an undisturbed pass: rows that
      arrive after their month was archived are lost, or push out the archived ones. */
  lemma LateRowsLost(d: Disk, m: int, rows: set<Row>, monthOf: Row -> int)
    requires d.phase.Idle? && Of(d.table, m, monthOf) <= rows
    ensures var nested := Nested(Of(d.table, m, monthOf), FileOf(d, m));
            && (Held(d, m, monthOf) <= Held(Run(d, Pass(m, rows), monthOf), m, monthOf) <==> nested)
            && (KeepsMonth(d, m, monthOf) <==> nested)
  {
    var t, f, h := Of(d.table, m, monthOf), FileOf(d, m), Held(d, m, monthOf);
    hide Run, Of, FileOf;
    PassLeaves(d, m, rows, monthOf);
    if t <= f { SameSize(t, f); }
    if f <= t { SameSize(f, t); }
    assert NoInsert(Pass(m, rows));
    if Nested(t, f) {
      forall steps | NoInsert(steps) ensures h <= Held(Run(d, steps, monthOf), m, monthOf) {
        RunSafe(d, steps, m, h, monthOf);
      }
    }
  }
}
