/** Budget alerts: thresholds compared without overflow, and a level that many instances raise by
    compare-and-set (internal/service/alerts.go). */
module Alerts {
  import opened Words

  // ---- Thresholds ----

  /** a * sa >= b * sb on double words. */
  function MulGE128(a: int64, sa: int64, b: int64, sb: int64): (r: bool)
    requires 0 <= a && 0 <= sa && 0 <= b && 0 <= sb
    ensures r <==> a * sa >= b * sb
  {
    var (hi1, lo1) := Mul64(ToU64(a), ToU64(sa));
    var (hi2, lo2) := Mul64(ToU64(b), ToU64(sb));
    if hi1 != hi2 then hi1 > hi2 else lo1 >= lo2
  }

  predicate Ascending(s: seq<int64>) {
    forall i, j :: 0 <= i < j < |s| ==> s[i] < s[j]
  }

  predicate NonDescending(s: seq<int64>) {
    forall i :: 0 < i < |s| ==> s[i - 1] <= s[i]
  }

  function Insert(x: int64, s: seq<int64>): (r: seq<int64>)
    ensures r != [] && (r[0] == x || (s != [] && r[0] == s[0]))
  {
    if s == [] || x <= s[0] then [x] + s else [s[0]] + Insert(x, s[1..])
  }

  function Sorted(s: seq<int64>): seq<int64> {
    if s == [] then [] else Insert(s[0], Sorted(s[1..]))
  }

  lemma {:induction false} InsertSorted(x: int64, s: seq<int64>)
    ensures NonDescending(s) ==> NonDescending(Insert(x, s))
    ensures forall v :: v in Insert(x, s) <==> v == x || v in s
  {
    if s != [] && !(x <= s[0]) {
      InsertSorted(x, s[1..]);
      assert s == [s[0]] + s[1..];
    }
  }

  lemma {:induction false} SortedIsSorted(s: seq<int64>)
    ensures NonDescending(Sorted(s))
    ensures forall v :: v in Sorted(s) <==> v in s
  {
    if s != [] {
      SortedIsSorted(s[1..]);
      InsertSorted(s[0], Sorted(s[1..]));
      assert s == [s[0]] + s[1..];
    }
  }

  /** The configured levels that are positive, each once, ascending. */
  method ParseLevels(raw: seq<int64>) returns (out: seq<int64>)
    ensures Ascending(out)
    ensures forall v :: v in out <==> v in raw && v > 0
  {
    var arr := Sorted(raw);
    SortedIsSorted(raw);
    out := [];
    for i := 0 to |arr|
      invariant Ascending(out)
      invariant forall v :: v in out <==> v in arr[..i] && v > 0
      invariant out != [] ==> i > 0 && out[|out| - 1] <= arr[i - 1]
    {
      assert arr[..i + 1] == arr[..i] + [arr[i]];
      if arr[i] > 0 && (i == 0 || arr[i] != arr[i - 1]) {
        out := out + [arr[i]];
      } else if i > 0 {
        assert arr[i - 1] in arr[..i];
      }
    }
    assert arr[..|arr|] == arr;
  }

  /** Threshold t, in percent, has been reached. */
  predicate Reached(used: int64, limit: int64, t: int64) {
    used * 100 >= limit * t
  }

  /** How many thresholds have been reached. */
  function Level(used: int64, limit: int64, levels: seq<int64>): (n: nat)
    ensures n <= |levels|
  {
    if levels == [] then 0
    else Level(used, limit, levels[..|levels| - 1]) + if Reached(used, limit, levels[|levels| - 1]) then 1 else 0
  }

  predicate Usable(limit: int64, levels: seq<int64>) {
    0 < limit && Ascending(levels) && forall t :: t in levels ==> 0 < t
  }

  method Bracket(used: int64, limit: int64, levels: seq<int64>) returns (lv: nat)
    requires 0 <= used && Usable(limit, levels)
    ensures lv == Level(used, limit, levels)
    ensures forall i :: 0 <= i < |levels| ==> (i < lv <==> used * 100 >= limit * levels[i])
  {
    LevelIsPrefix(used, limit, levels);
    lv := 0;
    for i := 0 to |levels|
      invariant lv <= i && (lv < i ==> !Reached(used, limit, levels[i - 1]))
      invariant lv == Level(used, limit, levels[..i])
    {
      assert levels[i] in levels;
      assert levels[..i + 1][..i] == levels[..i];
      if MulGE128(used, 100, limit, levels[i]) {
        if i > 0 {
          assert levels[i - 1] in levels;
          MulMono(limit, limit, levels[i - 1], levels[i]);
        }
        lv := i + 1;
      }
    }
    assert levels[..|levels|] == levels;
  }

  /** The reached thresholds are the first ones, so the level names the highest of them. */
  lemma {:induction false} LevelIsPrefix(used: int64, limit: int64, levels: seq<int64>)
    requires 0 <= used && Usable(limit, levels)
    ensures forall i :: 0 <= i < |levels| ==> (used * 100 >= limit * levels[i] <==> i < Level(used, limit, levels))
  {
    if levels != [] {
      var n := |levels| - 1;
      var rest := levels[..n];
      forall t | t in rest ensures t in levels { }
      LevelIsPrefix(used, limit, rest);
      if n > 0 && Reached(used, limit, levels[n]) {
        assert levels[n - 1] in levels && levels[n] in levels;
        MulMono(limit, limit, levels[n - 1], levels[n]);
        assert Reached(used, limit, rest[n - 1]);
      }
      assert forall i :: 0 <= i < n ==> rest[i] == levels[i];
    }
  }

  lemma {:induction false} LevelMono(used: int64, used': int64, limit: int64, levels: seq<int64>)
    requires used <= used'
    ensures Level(used, limit, levels) <= Level(used', limit, levels)
  {
    if levels != [] { LevelMono(used, used', limit, levels[..|levels| - 1]); }
  }

  // ---- Many checks at once ----

  /** What a running check has read, and whether it has come to its second statement. */
  datatype Reading = Reading(used: int64, level: nat, levelDone: bool)

  /** One organization or user: its row, the running checks, and the mails sent. */
  datatype World = World(used: int64, level: nat, hit: bool, readings: map<int, Reading>,
                         mails: seq<nat>, balanceMails: nat)

  datatype Setting = Setting(limit: int64, levels: seq<int64>, balance: int64)

  /** Each is one statement; the checks of all instances run between one another. */
  datatype Step = Charge(cost: int64) | Read(id: int) | CommitLevel(id: int) | CommitBalance(id: int)

  function Next(w: World, step: Step, c: Setting): World {
    match step
    case Charge(cost) => if 0 <= cost && w.used + cost < TWO63 then w.(used := w.used + cost) else w
    case Read(id) =>
      if id in w.readings then w else w.(readings := w.readings[id := Reading(w.used, w.level, false)])
    case CommitLevel(id) =>
      if id !in w.readings || w.readings[id].levelDone then w
      else
        var r := w.readings[id];
        var w1 := w.(readings := w.readings[id := r.(levelDone := true)]);
        var newLevel := Level(r.used, c.limit, c.levels);
        if newLevel > r.level then
          if w.level < newLevel then w1.(level := newLevel, mails := w.mails + [newLevel]) else w1
        else if newLevel < r.level then w1.(level := newLevel)
        else w1
    case CommitBalance(id) =>
      if id !in w.readings || !w.readings[id].levelDone then w
      else
        var w1 := w.(readings := w.readings - {id});
        if c.balance <= 0 then w1
        else if High(w.readings[id], c) then w1.(hit := false)
        else if w.hit then w1
        else w1.(hit := true, balanceMails := w.balanceMails + 1)
  }

  /** The balance was above the threshold when this was read. */
  predicate High(r: Reading, c: Setting) { c.limit - r.used >= c.balance }

  function Run(w: World, steps: seq<Step>, c: Setting): World
    decreases |steps|
  {
    if steps == [] then w else Run(Next(w, steps[0], c), steps[1..], c)
  }

  ghost predicate Inv(w: World, c: Setting) {
    && 0 <= w.used && w.level <= Level(w.used, c.limit, c.levels)
    && (forall id :: id in w.readings ==>
          var r := w.readings[id];
          0 <= r.used <= w.used && r.level <= w.level && r.level <= Level(r.used, c.limit, c.levels))
    && (forall i, j :: 0 <= i < j < |w.mails| ==> w.mails[i] < w.mails[j])
    && (forall i :: 0 <= i < |w.mails| ==> 0 < w.mails[i] <= w.level)
  }

  lemma StepInv(w: World, step: Step, c: Setting)
    requires Inv(w, c)
    ensures Inv(Next(w, step, c), c) && w.level <= Next(w, step, c).level
  {
    hide Level;
    match step {
      case Charge(cost) => LevelMono(w.used, Next(w, step, c).used, c.limit, c.levels);
      case CommitLevel(id) => CommitLevelInv(w, id, c);
      case _ =>
    }
  }

  lemma CommitLevelInv(w: World, id: int, c: Setting)
    requires Inv(w, c)
    ensures Inv(Next(w, CommitLevel(id), c), c) && w.level <= Next(w, CommitLevel(id), c).level
  {
    hide Level;
    if id in w.readings && !w.readings[id].levelDone {
      LevelMono(w.readings[id].used, w.used, c.limit, c.levels);
    }
  }

  /** With fixed limit and thresholds, whatever the interleaving, the levels mailed strictly
      increase, so each is mailed at most once, and the row never claims more than was used. */
  lemma {:induction false} LevelsSentOnce(w: World, steps: seq<Step>, c: Setting)
    requires Inv(w, c)
    ensures Inv(Run(w, steps, c), c)
    ensures w.level <= Run(w, steps, c).level
    decreases |steps|
  {
    hide Inv, Next;
    if steps != [] {
      StepInv(w, steps[0], c);
      LevelsSentOnce(Next(w, steps[0], c), steps[1..], c);
    }
  }

  /** No settlement, and nothing of the check itself. */
  predicate Quiet(steps: seq<Step>, id: int) {
    forall i :: 0 <= i < |steps| ==>
      !steps[i].Charge? && steps[i] != CommitLevel(id) && steps[i] != CommitBalance(id)
  }

  lemma {:induction false} QuietKeepsReading(w: World, steps: seq<Step>, id: int, c: Setting)
    requires Quiet(steps, id) && id in w.readings
    ensures var w' := Run(w, steps, c); w'.used == w.used && id in w'.readings && w'.readings[id] == w.readings[id]
    decreases |steps|
  {
    if steps != [] {
      assert Quiet(steps[1..], id) by { assert forall i :: 0 <= i < |steps| - 1 ==> steps[1..][i] == steps[i + 1]; }
      QuietKeepsReading(Next(w, steps[0], c), steps[1..], id, c);
    }
  }

  /** A check that begins after the last settlement leaves the row at the true level, whatever other
      checks do meanwhile. */
  lemma LastCheckSettles(w: World, between: seq<Step>, id: int, c: Setting)
    requires Inv(w, c) && Quiet(between, id) && id !in w.readings
    ensures var w' := Next(Run(Next(w, Read(id), c), between, c), CommitLevel(id), c);
            w'.used == w.used && w'.level == Level(w.used, c.limit, c.levels)
  {
    hide Level;
    var w1 := Next(w, Read(id), c);
    StepInv(w, Read(id), c);
    QuietKeepsReading(w1, between, id, c);
    LevelsSentOnce(w1, between, c);
  }

  // ---- The balance alert ----

  predicate Low(w: World, c: Setting) { c.limit - w.used < c.balance }

  /** Some running check read the balance while it was still above the threshold. */
  ghost predicate Outdated(w: World, c: Setting) {
    exists id :: id in w.readings && High(w.readings[id], c)
  }

  lemma MailsGrow(w: World, step: Step, c: Setting)
    ensures w.balanceMails <= Next(w, step, c).balanceMails
  {
  }

  lemma {:induction false} MailsGrowOn(w: World, steps: seq<Step>, c: Setting)
    ensures w.balanceMails <= Run(w, steps, c).balanceMails
    decreases |steps|
  {
    hide Next;
    if steps != [] {
      MailsGrow(w, steps[0], c);
      MailsGrowOn(Next(w, steps[0], c), steps[1..], c);
    }
  }

  /** Once mailed, with no outdated reading about, the alert is not mailed again as usage grows. */
  lemma {:induction false} BalanceSentOnce(w: World, steps: seq<Step>, c: Setting)
    requires 0 < c.balance && w.hit && Low(w, c) && !Outdated(w, c)
    ensures Run(w, steps, c).balanceMails == w.balanceMails
    decreases |steps|
  {
    hide Level;
    if steps != [] {
      var w' := Next(w, steps[0], c);
      forall id | id in w'.readings ensures !High(w'.readings[id], c) {
        if id in w.readings { assert !High(w.readings[id], c); }
      }
      BalanceSentOnce(w', steps[1..], c);
    }
  }

  /** The outdated check finishes, and another one begins and finishes. */
  function Again(id: int, other: int): seq<Step> {
    [CommitLevel(id), CommitBalance(id), Read(other), CommitLevel(other), CommitBalance(other)]
  }

  lemma AgainMails(w: World, id: int, other: int, c: Setting)
    requires 0 < c.balance && w.hit && Low(w, c) && id in w.readings && High(w.readings[id], c) && other !in w.readings
    ensures Run(w, Again(id, other), c).balanceMails == w.balanceMails + 1
  {
    hide Level;
    var s := Again(id, other);
    var w1 := Next(w, s[0], c);
    var w2 := Next(w1, s[1], c);
    assert !w2.hit && other !in w2.readings && w2.balanceMails == w.balanceMails && w2.used == w.used;
    var w3 := Next(w2, s[2], c);
    var w4 := Next(w3, s[3], c);
    assert !w4.hit && w4.readings[other].levelDone && w4.balanceMails == w.balanceMails;
    var w5 := Next(w4, s[4], c);
    assert s[1..] == s[1..][..1] + s[2..] && s[1..][1..] == s[2..] && s[2..][1..] == s[3..] && s[3..][1..] == s[4..];
    assert s[4..][1..] == [];
    assert Run(w, s, c) == Run(w1, s[1..], c) == Run(w2, s[2..], c) == Run(w3, s[3..], c);
    assert Run(w3, s[3..], c) == Run(w4, s[4..], c) == Run(w5, [], c) == w5;
  }

  /** After the alert has been mailed, it can be mailed again while the balance only falls exactly
      when some running check read the balance before it fell below the threshold. */
  lemma MailedAgainIff(w: World, c: Setting)
    requires 0 < c.balance && w.hit && Low(w, c)
    ensures (exists steps :: Run(w, steps, c).balanceMails > w.balanceMails) <==> Outdated(w, c)
  {
    if Outdated(w, c) {
      var id :| id in w.readings && High(w.readings[id], c);
      var other := Beyond(w.readings.Keys, i => i);
      assert other !in w.readings.Keys;
      AgainMails(w, id, other, c);
    } else {
      forall steps ensures Run(w, steps, c).balanceMails <= w.balanceMails {
        BalanceSentOnce(w, steps, c);
      }
    }
  }

  /** So of a check that mails it can be told on the spot whether this was the only mail: it was,
      whatever follows, exactly when no outdated check is running. */
  lemma OnlyMailIff(w: World, id: int, c: Setting)
    requires Inv(w, c) && Next(w, CommitBalance(id), c).balanceMails > w.balanceMails
    ensures var w' := Next(w, CommitBalance(id), c);
            (forall steps :: Run(w', steps, c).balanceMails == w'.balanceMails) <==> !Outdated(w', c)
  {
    hide Run, Outdated;
    var w' := Next(w, CommitBalance(id), c);
    assert w'.hit && Low(w', c);
    MailedAgainIff(w', c);
    forall steps ensures w'.balanceMails <= Run(w', steps, c).balanceMails {
      MailsGrowOn(w', steps, c);
    }
  }

  lemma {:induction false} RunAppend(w: World, xs: seq<Step>, ys: seq<Step>, c: Setting)
    ensures Run(w, xs + ys, c) == Run(Run(w, xs, c), ys, c)
    decreases |xs|
  {
    if xs == [] {
      assert xs + ys == ys;
    } else {
      assert (xs + ys)[1..] == xs[1..] + ys;
      RunAppend(Next(w, xs[0], c), xs[1..], ys, c);
    }
  }

  /** Check 1 reads the row, a call is charged, check 2 mails; check 1 resets the mark, and check 3
      mails again. */
  lemma BalanceSentTwice()
    ensures var c := Setting(100, [], 50);
            var steps := [Read(1), Charge(60), Read(2), CommitLevel(2), CommitBalance(2)] + Again(1, 3);
            Run(World(0, 0, false, map[], [], 0), steps, c).balanceMails == 2
  {
    var c := Setting(100, [], 50);
    var s := [Read(1), Charge(60), Read(2), CommitLevel(2), CommitBalance(2)];
    var w0 := World(0, 0, false, map[], [], 0);
    var w1 := Next(w0, s[0], c);
    var w2 := Next(w1, s[1], c);
    var w3 := Next(w2, s[2], c);
    var w4 := Next(w3, s[3], c);
    var w5 := Next(w4, s[4], c);
    assert w5.hit && w5.balanceMails == 1 && 1 in w5.readings && High(w5.readings[1], c) && 3 !in w5.readings;
    assert s[1..][1..] == s[2..] && s[2..][1..] == s[3..] && s[3..][1..] == s[4..] && s[4..][1..] == [];
    assert Run(w0, s, c) == Run(w1, s[1..], c) == Run(w2, s[2..], c) == Run(w3, s[3..], c);
    assert Run(w3, s[3..], c) == Run(w4, s[4..], c) == Run(w5, [], c) == w5;
    AgainMails(w5, 1, 3, c);
    RunAppend(w0, s, Again(1, 3), c);
  }
}
