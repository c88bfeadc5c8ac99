/** The candidate list of a model: every usable pair of channel and key, in the order they will be
    tried, and the figures that tell why there are none (internal/gateway/selector.go). */
module Candidates {
  import opened Relay
  import opened Selector

  // ---- One channel ----

  function Pool(keys: seq<Key>, vendor: nat): seq<Key> {
    if keys == [] then []
    else
      var rest, k := Pool(keys[..|keys| - 1], vendor), keys[|keys| - 1];
      if k.vendor == vendor then rest + [k] else rest
  }

  function Usable(pool: seq<Key>, state: Key -> KeyState): seq<Key> {
    if pool == [] then []
    else
      var rest, k := Usable(pool[..|pool| - 1], state), pool[|pool| - 1];
      if state(k).Ready? then rest + [k] else rest
  }

  /** Keys cooling down, or those of them stopped for quota. */
  function CoolingIn(pool: seq<Key>, state: Key -> KeyState, quotaOnly: bool): nat {
    if pool == [] then 0
    else
      var k := state(pool[|pool| - 1]);
      CoolingIn(pool[..|pool| - 1], state, quotaOnly) + if k.Cooling? && (quotaOnly ==> k.forQuota) then 1 else 0
  }

  function CandidateOf(r: Row, k: Key): Candidate { Candidate(r.channel, r.vendor, k.id, r.priority) }

  function Label(r: Row, keys: seq<Key>): seq<Candidate> {
    seq(|keys|, i requires 0 <= i < |keys| => CandidateOf(r, keys[i]))
  }

  function KeyWeight(k: Key): int { k.weight }

  function RowWeight(r: Row): int { r.weight }

  function ChannelCandidates(r: Row, keys: seq<Key>, state: Key -> KeyState, dice: nat -> nat): seq<Candidate> {
    Label(r, Shuffle(Usable(Pool(keys, r.vendor), state), KeyWeight, dice))
  }

  /** Key material there, none of it cooling, and none of it decryptable. */
  predicate Failing(vendor: nat, keys: seq<Key>, state: Key -> KeyState) {
    var pool := Pool(keys, vendor);
    pool != [] && Usable(pool, state) == [] && CoolingIn(pool, state, false) == 0
  }

  method ExpandChannel(r: Row, pool: seq<Key>, state: Key -> KeyState, dice: nat -> nat)
    returns (out: seq<Candidate>, cooling: nat, quota: nat, failed: bool)
    ensures out == Label(r, Shuffle(Usable(pool, state), KeyWeight, dice))
    ensures cooling == CoolingIn(pool, state, false) && quota == CoolingIn(pool, state, true)
    ensures failed <==> pool != [] && Usable(pool, state) == [] && cooling == 0
  {
    if pool == [] { return [], 0, 0, false; }
    var usable: seq<Key> := [];
    cooling, quota := 0, 0;
    for i := 0 to |pool|
      invariant usable == Usable(pool[..i], state)
      invariant cooling == CoolingIn(pool[..i], state, false) && quota == CoolingIn(pool[..i], state, true)
    {
      assert pool[..i + 1][..i] == pool[..i];
      match state(pool[i]) {
        case Cooling(forQuota) =>
          cooling := cooling + 1;
          if forQuota { quota := quota + 1; }
        case Ready => usable := usable + [pool[i]];
        case Undecryptable =>
      }
    }
    assert pool[..|pool|] == pool;
    if usable == [] { return [], cooling, quota, cooling == 0; }
    var shuffled := WeightedShuffle(usable, KeyWeight, dice);
    out := [];
    for i := 0 to |shuffled|
      invariant out == Label(r, shuffled[..i])
    {
      out := out + [CandidateOf(r, shuffled[i])];
    }
    assert shuffled[..|shuffled|] == shuffled;
    failed := false;
  }

  // ---- All channels ----

  function Valid(rows: seq<Row>): seq<Row> {
    if rows == [] then []
    else
      var rest, r := Valid(rows[..|rows| - 1]), rows[|rows| - 1];
      if r.routable then rest + [r] else rest
  }

  function Expand(rows: seq<Row>, keys: seq<Key>, state: Key -> KeyState, dice: int -> nat -> nat): seq<Candidate> {
    if rows == [] then []
    else
      var r := rows[|rows| - 1];
      Expand(rows[..|rows| - 1], keys, state, dice) + ChannelCandidates(r, keys, state, dice(r.channel))
  }

  function SumCooling(rows: seq<Row>, keys: seq<Key>, state: Key -> KeyState, quotaOnly: bool): nat {
    if rows == [] then 0
    else
      SumCooling(rows[..|rows| - 1], keys, state, quotaOnly)
          + CoolingIn(Pool(keys, rows[|rows| - 1].vendor), state, quotaOnly)
  }

  function SumFailing(rows: seq<Row>, keys: seq<Key>, state: Key -> KeyState): nat {
    if rows == [] then 0
    else
      SumFailing(rows[..|rows| - 1], keys, state) + if Failing(rows[|rows| - 1].vendor, keys, state) then 1 else 0
  }

  function Keyed(rows: seq<Row>, keys: seq<Key>): set<nat> {
    set r | r in rows && Pool(keys, r.vendor) != [] :: r.vendor
  }

  predicate Descending(rows: seq<Row>) {
    forall i, j :: 0 <= i < j < |rows| ==> rows[i].priority >= rows[j].priority
  }

  datatype Stats = Stats(channels: nat, keyedVendors: nat, coolingKeys: nat, quotaCoolingKeys: nat, decryptFailed: nat)

  method ValidRows(rows: seq<Row>) returns (valid: seq<Row>)
    ensures valid == Valid(rows)
  {
    valid := [];
    for i := 0 to |rows|
      invariant valid == Valid(rows[..i])
    {
      assert rows[..i + 1][..i] == rows[..i];
      if rows[i].routable { valid := valid + [rows[i]]; }
    }
    assert rows[..|rows|] == rows;
  }

  method KeyedVendors(valid: seq<Row>, keys: seq<Key>) returns (keyed: set<nat>)
    ensures keyed == Keyed(valid, keys)
  {
    hide Pool;
    keyed := {};
    for i := 0 to |valid|
      invariant keyed == Keyed(valid[..i], keys)
    {
      KeyedSnoc(valid, i, keys);
      if |Pool(keys, valid[i].vendor)| > 0 { keyed := keyed + {valid[i].vendor}; }
    }
    assert valid[..|valid|] == valid;
  }

  datatype Tally = Tally(cooling: nat, quota: nat, failed: nat)

  predicate Expanded(ordered: seq<Row>, keys: seq<Key>, state: Key -> KeyState, dice: int -> nat -> nat,
                     cands: seq<Candidate>, t: Tally) {
    && cands == Expand(ordered, keys, state, dice)
    && t == Tally(SumCooling(ordered, keys, state, false), SumCooling(ordered, keys, state, true),
          SumFailing(ordered, keys, state))
  }

  /** Expands the channels of one group after those expanded before. */
  method ExpandGroup(group: seq<Row>, keys: seq<Key>, state: Key -> KeyState, dice: int -> nat -> nat,
                     before: seq<Candidate>, tally: Tally, ghost start: seq<Row>)
    returns (cands: seq<Candidate>, t: Tally)
    requires Expanded(start, keys, state, dice, before, tally)
    ensures Expanded(start + group, keys, state, dice, cands, t)
  {
    hide Failing, CoolingIn, Pool, Usable, Shuffle, Label, Expanded;
    cands, t := before, tally;
    assert start + group[..0] == start;
    for g := 0 to |group|
      invariant Expanded(start + group[..g], keys, state, dice, cands, t)
    {
      var r := group[g];
      var cc, cooling, quota, bad := ExpandChannel(r, Pool(keys, r.vendor), state, dice(r.channel));
      ExpandedSnoc(start + group[..g], r, keys, state, dice, cands, t, bad);
      assert start + group[..g + 1] == start + group[..g] + [r];
      t := Tally(t.cooling + cooling, t.quota + quota, if bad then t.failed + 1 else t.failed);
      cands := cands + cc;
    }
    assert group[..|group|] == group;
  }

  // ---- The order of the channels ----

  /** How many leading rows share the first one's priority. */
  function Lead(rows: seq<Row>): (n: nat)
    requires rows != []
    ensures 0 < n <= |rows|
    ensures forall k :: 0 <= k < n ==> rows[k].priority == rows[0].priority
    ensures n < |rows| ==> rows[n].priority != rows[0].priority
  {
    if |rows| == 1 || rows[1].priority != rows[0].priority then 1 else 1 + Lead(rows[1..])
  }

  /** Group by group; groups are shuffled until one of them has yielded a candidate. `at` is the
      position of the group in the whole list. */
  function Ordered(rows: seq<Row>, at: nat, started: bool, keys: seq<Key>, state: Key -> KeyState,
                   dice: int -> nat -> nat, groupDice: int -> nat -> nat): seq<Row>
    decreases |rows|
  {
    if rows == [] then []
    else
      var n := Lead(rows);
      var group := if started then rows[..n] else Shuffle(rows[..n], RowWeight, groupDice(at));
      group + Ordered(rows[n..], at + n, started || Expand(group, keys, state, dice) != [],
                      keys, state, dice, groupDice)
  }

  method SelectCandidates(rows: seq<Row>, keys: seq<Key>, state: Key -> KeyState, dice: int -> nat -> nat,
                          groupDice: int -> nat -> nat)
    returns (cands: seq<Candidate>, stats: Stats)
    requires Descending(rows)
    ensures cands == Expand(Ordered(Valid(rows), 0, false, keys, state, dice, groupDice), keys, state, dice)
    ensures var valid := Valid(rows);
            stats == Stats(|valid|, |Keyed(valid, keys)|, SumCooling(valid, keys, state, false),
                           SumCooling(valid, keys, state, true), SumFailing(valid, keys, state))
    ensures Unique(rows, keys) ==> Exactly(cands, rows, keys, state)
  {
    hide Valid, Keyed, Expand, SumCooling, SumFailing, Shuffle, Descending, Unique, Exactly, Ordered, Lead;
    var valid := ValidRows(rows);
    var keyed := KeyedVendors(valid, keys);
    ValidDescending(rows);
    cands := [];
    ghost var ordered: seq<Row> := [];
    var t := Tally(0, 0, 0);
    NothingExpanded(keys, state, dice);
    var i := 0;
    while i < |valid|
      invariant 0 <= i <= |valid|
      invariant ordered + Ordered(valid[i..], i, cands != [], keys, state, dice, groupDice)
                == Ordered(valid, 0, false, keys, state, dice, groupDice)
      invariant Expanded(ordered, keys, state, dice, cands, t)
    {
      var j := i;
      while j < |valid| && valid[j].priority == valid[i].priority
        invariant i <= j <= |valid|
        invariant forall k :: i <= k < j ==> valid[k].priority == valid[i].priority
      {
        j := j + 1;
      }
      var group := valid[i..j];
      if |cands| == 0 {
        group := WeightedShuffle(group, RowWeight, groupDice(i));
      }
      ghost var before := cands;
      cands, t := ExpandGroup(group, keys, state, dice, cands, t, ordered);
      GroupDone(valid, i, j, ordered, group, before, cands, keys, state, dice, groupDice);
      ordered := ordered + group;
      i := j;
    }
    OrderedEmpty(|valid|, cands != [], keys, state, dice, groupDice);
    assert valid[|valid|..] == [] && ordered == Ordered(valid, 0, false, keys, state, dice, groupDice);
    OrderedPermutes(valid, 0, false, keys, state, dice, groupDice);
    SumsPermuted(ordered, valid, keys, state);
    if Unique(rows, keys) { CandidatesExact(rows, keys, state, dice, ordered); }
    stats := Stats(|valid|, |keyed|, t.cooling, t.quota, t.failed);
  }

  /** One more group has been expanded. */
  lemma GroupDone(valid: seq<Row>, i: nat, j: nat, ordered: seq<Row>, group: seq<Row>,
                  before: seq<Candidate>, after: seq<Candidate>, keys: seq<Key>, state: Key -> KeyState,
                  dice: int -> nat -> nat, groupDice: int -> nat -> nat)
    requires i < j <= |valid| && (forall k :: i <= k < j ==> valid[k].priority == valid[i].priority)
    requires j < |valid| ==> valid[j].priority != valid[i].priority
    requires group == if before != [] then valid[i..j] else Shuffle(valid[i..j], RowWeight, groupDice(i))
    requires before == Expand(ordered, keys, state, dice) && after == Expand(ordered + group, keys, state, dice)
    ensures ordered + Ordered(valid[i..], i, before != [], keys, state, dice, groupDice)
         == ordered + group + Ordered(valid[j..], j, after != [], keys, state, dice, groupDice)
  {
    hide Expand, Shuffle, Ordered, Lead;
    var rest := valid[i..];
    LeadIs(rest, j - i);
    assert rest[..j - i] == valid[i..j] && rest[j - i..] == valid[j..];
    OrderedStep(rest, i, before != [], keys, state, dice, groupDice, group);
    ExpandAppend(ordered, group, keys, state, dice);
  }

  lemma LeadIs(rows: seq<Row>, n: nat)
    requires 0 < n <= |rows| && forall k :: 0 <= k < n ==> rows[k].priority == rows[0].priority
    requires n < |rows| ==> rows[n].priority != rows[0].priority
    ensures Lead(rows) == n
  {
  }

  lemma OrderedStep(rows: seq<Row>, at: nat, started: bool, keys: seq<Key>, state: Key -> KeyState,
                    dice: int -> nat -> nat, groupDice: int -> nat -> nat, group: seq<Row>)
    requires rows != []
    requires group == if started then rows[..Lead(rows)] else Shuffle(rows[..Lead(rows)], RowWeight, groupDice(at))
    ensures Ordered(rows, at, started, keys, state, dice, groupDice)
         == group + Ordered(rows[Lead(rows)..], at + Lead(rows), started || Expand(group, keys, state, dice) != [],
                            keys, state, dice, groupDice)
  {
    hide Lead, Shuffle, Expand;
  }

  lemma OrderedEmpty(at: nat, started: bool, keys: seq<Key>, state: Key -> KeyState, dice: int -> nat -> nat,
                     groupDice: int -> nat -> nat)
    ensures Ordered([], at, started, keys, state, dice, groupDice) == []
  {
  }

  lemma {:induction false} ExpandAppend(xs: seq<Row>, ys: seq<Row>, keys: seq<Key>, state: Key -> KeyState,
                                        dice: int -> nat -> nat)
    ensures Expand(xs + ys, keys, state, dice) == Expand(xs, keys, state, dice) + Expand(ys, keys, state, dice)
  {
    hide ChannelCandidates;
    if ys == [] {
      assert xs + ys == xs;
    } else {
      ExpandAppend(xs, ys[..|ys| - 1], keys, state, dice);
      assert (xs + ys)[..|xs + ys| - 1] == xs + ys[..|ys| - 1];
    }
  }

  /** In a group that is shuffled each channel comes first for as many numbers as it weighs. */
  lemma FirstChannel(rows: seq<Row>, at: nat, keys: seq<Key>, state: Key -> KeyState, dice: int -> nat -> nat,
                     groupDice: int -> nat -> nat, k: nat)
    requires rows != []
    requires Falls(seq(Lead(rows), i requires 0 <= i < Lead(rows) => rows[i].weight), groupDice(at)(Lead(rows)), k)
    ensures var ordered := Ordered(rows, at, false, keys, state, dice, groupDice);
            ordered != [] && ordered[0] == rows[k]
  {
    hide Ordered, Lead, Shuffle, Expand, Falls;
    var group := rows[..Lead(rows)];
    assert Weights(group, RowWeight) == seq(Lead(rows), i requires 0 <= i < Lead(rows) => rows[i].weight);
    FallsInside(Weights(group, RowWeight), groupDice(at)(Lead(rows)), k);
    FirstDrawn(group, RowWeight, groupDice(at), k);
    OrderedStep(rows, at, false, keys, state, dice, groupDice, Shuffle(group, RowWeight, groupDice(at)));
  }

  lemma FallsInside(ws: seq<int>, number: nat, k: nat)
    requires Falls(ws, number, k)
    ensures k < |ws|
  {
  }

  /** Once a group has yielded a candidate the others follow as listed. */
  lemma {:induction false} OthersAsListed(rows: seq<Row>, at: nat, keys: seq<Key>, state: Key -> KeyState,
                                          dice: int -> nat -> nat, groupDice: int -> nat -> nat)
    ensures Ordered(rows, at, true, keys, state, dice, groupDice) == rows
    decreases |rows|
  {
    hide Ordered, Lead, Shuffle, Expand;
    if rows == [] {
      OrderedEmpty(at, true, keys, state, dice, groupDice);
    } else {
      var n := Lead(rows);
      OrderedStep(rows, at, true, keys, state, dice, groupDice, rows[..n]);
      OthersAsListed(rows[n..], at + n, keys, state, dice, groupDice);
      assert rows[..n] + rows[n..] == rows;
    }
  }

  /** In a channel each ready key comes first for as many numbers as it weighs. */
  lemma FirstKey(r: Row, keys: seq<Key>, state: Key -> KeyState, dice: nat -> nat, k: nat)
    requires var usable := Usable(Pool(keys, r.vendor), state);
             Falls(seq(|usable|, i requires 0 <= i < |usable| => usable[i].weight), dice(|usable|), k)
    ensures var usable, cands := Usable(Pool(keys, r.vendor), state), ChannelCandidates(r, keys, state, dice);
            cands != [] && k < |usable| && cands[0] == Candidate(r.channel, r.vendor, usable[k].id, r.priority)
  {
    hide Pool, Usable, Shuffle, Falls;
    var usable := Usable(Pool(keys, r.vendor), state);
    assert Weights(usable, KeyWeight) == seq(|usable|, i requires 0 <= i < |usable| => usable[i].weight);
    FallsInside(Weights(usable, KeyWeight), dice(|usable|), k);
    FirstDrawn(usable, KeyWeight, dice, k);
  }

  /** Whatever the draws, the channels are only reordered, and within their priority. */
  lemma {:induction false} OrderedPermutes(rows: seq<Row>, at: nat, started: bool, keys: seq<Key>,
                                           state: Key -> KeyState, dice: int -> nat -> nat,
                                           groupDice: int -> nat -> nat)
    requires Descending(rows)
    ensures var ordered := Ordered(rows, at, started, keys, state, dice, groupDice);
            multiset(ordered) == multiset(rows) && Descending(ordered)
    decreases |rows|
  {
    hide Shuffle, Expand, Ordered, Lead, Descending;
    if rows == [] {
      OrderedEmpty(at, started, keys, state, dice, groupDice);
      NothingExpanded(keys, state, dice);
    } else {
      var n := Lead(rows);
      var group := if started then rows[..n] else Shuffle(rows[..n], RowWeight, groupDice(at));
      var started' := started || Expand(group, keys, state, dice) != [];
      OrderedStep(rows, at, started, keys, state, dice, groupDice, group);
      ShufflePermutes(rows[..n], RowWeight, groupDice(at));
      assert rows == rows[..n] + rows[n..];
      DescendingRest(rows, n);
      OrderedPermutes(rows[n..], at + n, started', keys, state, dice, groupDice);
      GroupFirst(rows, n, group, Ordered(rows[n..], at + n, started', keys, state, dice, groupDice));
    }
  }

  lemma DescendingRest(rows: seq<Row>, n: nat)
    requires n <= |rows| && Descending(rows)
    ensures Descending(rows[n..])
  {
  }

  lemma GroupFirst(rows: seq<Row>, n: nat, group: seq<Row>, rest: seq<Row>)
    requires 0 < n <= |rows| && Descending(rows) && Descending(rest)
    requires forall k :: 0 <= k < n ==> rows[k].priority == rows[0].priority
    requires multiset(group) == multiset(rows[..n]) && multiset(rest) == multiset(rows[n..])
    ensures Descending(group + rest)
  {
    forall a | 0 <= a < |group| ensures group[a].priority == rows[0].priority {
      assert group[a] in multiset(group);
      assert group[a] in rows[..n];
    }
    forall a | 0 <= a < |rest| ensures rest[a].priority <= rows[0].priority {
      assert rest[a] in multiset(rest);
      assert rest[a] in rows[n..];
    }
  }

  /** The figures do not depend on the order. */
  lemma {:induction false} SumsPermuted(xs: seq<Row>, ys: seq<Row>, keys: seq<Key>, state: Key -> KeyState)
    requires multiset(xs) == multiset(ys)
    ensures forall q: bool :: SumCooling(xs, keys, state, q) == SumCooling(ys, keys, state, q)
    ensures SumFailing(xs, keys, state) == SumFailing(ys, keys, state)
    decreases |xs|
  {
    hide CoolingIn, Pool, Failing;
    if xs == [] {
      assert |multiset(ys)| == 0;
      assert ys == [];
    } else {
      hide SumCooling, SumFailing;
      var x, rest := xs[|xs| - 1], xs[..|xs| - 1];
      assert xs == rest + [x];
      assert x in multiset(ys);
      var k :| 0 <= k < |ys| && ys[k] == x;
      SumsDrop(ys, k, keys, state);
      assert multiset(rest) == multiset(xs) - multiset{x};
      assert multiset(Drop(ys, k)) == multiset(ys) - multiset{x} by { DropMultiset(ys, k); }
      SumsPermuted(rest, Drop(ys, k), keys, state);
      SumsAppend(rest, [x], keys, state);
    }
  }

  lemma SumsDrop(ys: seq<Row>, k: nat, keys: seq<Key>, state: Key -> KeyState)
    requires k < |ys|
    ensures forall q: bool ::
      SumCooling(ys, keys, state, q) == SumCooling(Drop(ys, k), keys, state, q) + SumCooling([ys[k]], keys, state, q)
    ensures SumFailing(ys, keys, state) == SumFailing(Drop(ys, k), keys, state) + SumFailing([ys[k]], keys, state)
  {
    hide SumCooling, SumFailing;
    assert ys == ys[..k] + [ys[k]] + ys[k + 1..];
    SumsAppend(ys[..k], ys[k + 1..], keys, state);
    SumsAppend(ys[..k] + [ys[k]], ys[k + 1..], keys, state);
    SumsAppend(ys[..k], [ys[k]], keys, state);
  }

  lemma {:induction false} SumsAppend(xs: seq<Row>, ys: seq<Row>, keys: seq<Key>, state: Key -> KeyState)
    ensures forall q: bool ::
      SumCooling(xs + ys, keys, state, q) == SumCooling(xs, keys, state, q) + SumCooling(ys, keys, state, q)
    ensures SumFailing(xs + ys, keys, state) == SumFailing(xs, keys, state) + SumFailing(ys, keys, state)
  {
    hide CoolingIn, Pool, Failing;
    if ys == [] {
      assert xs + ys == xs;
    } else {
      SumsAppend(xs, ys[..|ys| - 1], keys, state);
      assert (xs + ys)[..|xs + ys| - 1] == xs + ys[..|ys| - 1];
    }
  }

  lemma NothingExpanded(keys: seq<Key>, state: Key -> KeyState, dice: int -> nat -> nat)
    ensures Expanded([], keys, state, dice, [], Tally(0, 0, 0)) && Descending([])
  {
  }

  lemma ExpandedSnoc(ordered: seq<Row>, r: Row, keys: seq<Key>, state: Key -> KeyState, dice: int -> nat -> nat,
                     cands: seq<Candidate>, t: Tally, bad: bool)
    requires Expanded(ordered, keys, state, dice, cands, t)
    requires bad <==>
      var pool := Pool(keys, r.vendor); pool != [] && Usable(pool, state) == [] && CoolingIn(pool, state, false) == 0
    ensures Expanded(ordered + [r], keys, state, dice, cands + ChannelCandidates(r, keys, state, dice(r.channel)),
                     Tally(t.cooling + CoolingIn(Pool(keys, r.vendor), state, false),
                           t.quota + CoolingIn(Pool(keys, r.vendor), state, true),
                           if bad then t.failed + 1 else t.failed))
  {
    hide CoolingIn, Pool, Usable, Shuffle, Label;
    assert (ordered + [r])[..|ordered|] == ordered;
  }

  lemma KeyedSnoc(valid: seq<Row>, i: nat, keys: seq<Key>)
    requires i < |valid|
    ensures Keyed(valid[..i + 1], keys)
        == Keyed(valid[..i], keys) + if Pool(keys, valid[i].vendor) != [] then {valid[i].vendor} else {}
  {
    assert valid[..i + 1] == valid[..i] + [valid[i]];
  }

  lemma {:induction false} ValidDescending(rows: seq<Row>)
    requires Descending(rows)
    ensures Descending(Valid(rows)) && forall r :: r in Valid(rows) <==> r in rows && r.routable
  {
    if rows != [] {
      ValidDescending(rows[..|rows| - 1]);
      assert rows == rows[..|rows| - 1] + [rows[|rows| - 1]];
      var rest := Valid(rows[..|rows| - 1]);
      forall i | 0 <= i < |rest| ensures rest[i].priority >= rows[|rows| - 1].priority {
        assert rest[i] in rest;
      }
    }
  }

  // ---- What the list is ----

  /** No channel in two rows, no key identifier on two keys: one ability row per channel and model,
      and a primary key. */
  predicate Unique(rows: seq<Row>, keys: seq<Key>) {
    && (forall r :: r in rows ==> multiset(rows)[r] == 1)
    && (forall r, r' :: r in rows && r' in rows && r.channel == r'.channel ==> r == r')
    && (forall k :: k in keys ==> multiset(keys)[k] == 1)
    && (forall k, k' :: k in keys && k' in keys && k.id == k'.id ==> k == k')
  }

  lemma {:induction false} PoolCount(keys: seq<Key>, vendor: nat, k: Key)
    ensures multiset(Pool(keys, vendor))[k] == if k.vendor == vendor then multiset(keys)[k] else 0
  {
    if keys != [] {
      PoolCount(keys[..|keys| - 1], vendor, k);
      assert keys == keys[..|keys| - 1] + [keys[|keys| - 1]];
    }
  }

  lemma {:induction false} UsableCount(pool: seq<Key>, state: Key -> KeyState, k: Key)
    ensures multiset(Usable(pool, state))[k] == if state(k).Ready? then multiset(pool)[k] else 0
  {
    if pool != [] {
      UsableCount(pool[..|pool| - 1], state, k);
      assert pool == pool[..|pool| - 1] + [pool[|pool| - 1]];
    }
  }

  lemma {:induction false} LabelCount(r: Row, keys: seq<Key>, k: Key)
    requires forall x :: x in keys && x.id == k.id ==> x == k
    ensures multiset(Label(r, keys))[CandidateOf(r, k)] == multiset(keys)[k]
  {
    if keys != [] {
      var rest, last := keys[..|keys| - 1], keys[|keys| - 1];
      assert keys == rest + [last];
      LabelCount(r, rest, k);
      assert Label(r, keys) == Label(r, rest) + [CandidateOf(r, last)];
    }
  }

  /** How often a pair is listed for its channel. */
  lemma ChannelCount(r: Row, keys: seq<Key>, state: Key -> KeyState, dice: nat -> nat, k: Key)
    requires forall x :: x in keys && x.id == k.id ==> x == k
    ensures multiset(ChannelCandidates(r, keys, state, dice))[CandidateOf(r, k)]
            == if k.vendor == r.vendor && state(k).Ready? then multiset(keys)[k] else 0
  {
    var usable := Usable(Pool(keys, r.vendor), state);
    var shuffled := Shuffle(usable, KeyWeight, dice);
    ShufflePermutes(usable, KeyWeight, dice);
    forall x | x in shuffled && x.id == k.id ensures x == k {
      assert x in multiset(usable);
      UsableCount(Pool(keys, r.vendor), state, x);
      PoolCount(keys, r.vendor, x);
      assert x in multiset(keys);
    }
    LabelCount(r, shuffled, k);
    UsableCount(Pool(keys, r.vendor), state, k);
    PoolCount(keys, r.vendor, k);
  }

  /** A candidate of a channel is a ready key of its vendor. */
  lemma ChannelSound(r: Row, keys: seq<Key>, state: Key -> KeyState, dice: nat -> nat, c: Candidate)
    requires c in ChannelCandidates(r, keys, state, dice)
    ensures c.channel == r.channel && c.priority == r.priority
    ensures exists k :: k in keys && k.vendor == r.vendor && state(k).Ready? && c == CandidateOf(r, k)
  {
    var usable := Usable(Pool(keys, r.vendor), state);
    var shuffled := Shuffle(usable, KeyWeight, dice);
    ShufflePermutes(usable, KeyWeight, dice);
    var i :| 0 <= i < |shuffled| && c == CandidateOf(r, shuffled[i]);
    var k := shuffled[i];
    assert k in multiset(shuffled);
    UsableCount(Pool(keys, r.vendor), state, k);
    PoolCount(keys, r.vendor, k);
    assert k in multiset(keys);
  }

  lemma {:induction false} ExpandSound(rows: seq<Row>, keys: seq<Key>, state: Key -> KeyState,
                                       dice: int -> nat -> nat, c: Candidate)
    requires c in Expand(rows, keys, state, dice)
    ensures exists r, k :: r in rows && k in keys && k.vendor == r.vendor && state(k).Ready? && c == CandidateOf(r, k)
  {
    hide ChannelCandidates;
    var r := rows[|rows| - 1];
    assert rows == rows[..|rows| - 1] + [r];
    if c in ChannelCandidates(r, keys, state, dice(r.channel)) {
      ChannelSound(r, keys, state, dice(r.channel), c);
    } else {
      ExpandSound(rows[..|rows| - 1], keys, state, dice, c);
    }
  }

  /** Every pair of a listed channel and a ready key of its vendor, exactly once. */
  lemma {:induction false} ExpandCount(rows: seq<Row>, keys: seq<Key>, state: Key -> KeyState,
                                       dice: int -> nat -> nat, r: Row, k: Key)
    requires Unique(rows, keys) && k in keys
    requires forall x :: x in rows && x.channel == r.channel ==> x == r
    ensures multiset(Expand(rows, keys, state, dice))[CandidateOf(r, k)]
            == if r in rows && k.vendor == r.vendor && state(k).Ready? then 1 else 0
  {
    hide ChannelCandidates;
    if rows != [] {
      var rest, last := rows[..|rows| - 1], rows[|rows| - 1];
      assert rows == rest + [last];
      UniqueRest(rest, last, keys);
      ExpandCount(rest, keys, state, dice, r, k);
      if last == r {
        ChannelCount(r, keys, state, dice(r.channel), k);
      } else if CandidateOf(r, k) in ChannelCandidates(last, keys, state, dice(last.channel)) {
        ChannelSound(last, keys, state, dice(last.channel), CandidateOf(r, k));
        assert false;
      }
    }
  }

  lemma UniqueRest(rest: seq<Row>, last: Row, keys: seq<Key>)
    requires Unique(rest + [last], keys)
    ensures Unique(rest, keys) && last !in rest
  {
    assert last in rest + [last];
    forall r | r in rest ensures multiset(rest)[r] == 1 && r != last {
      assert r in rest + [last];
      assert multiset(rest)[r] >= 1;
    }
  }

  predicate Falling(cands: seq<Candidate>) {
    forall i, j :: 0 <= i < j < |cands| ==> cands[i].priority >= cands[j].priority
  }

  lemma BlockAppended(before: seq<Candidate>, block: seq<Candidate>, last: Row)
    requires Contiguous(before) && Falling(before)
    requires forall i :: 0 <= i < |block| ==> block[i].channel == last.channel && block[i].priority == last.priority
    requires forall i :: 0 <= i < |before| ==> before[i].channel != last.channel && before[i].priority >= last.priority
    ensures Contiguous(before + block) && Falling(before + block)
  {
  }

  lemma ElsewhereBefore(rest: seq<Row>, last: Row, keys: seq<Key>, state: Key -> KeyState, dice: int -> nat -> nat,
                        c: Candidate)
    requires Unique(rest + [last], keys) && Descending(rest + [last]) && c in Expand(rest, keys, state, dice)
    ensures c.channel != last.channel && c.priority >= last.priority
  {
    hide Expand;
    UniqueRest(rest, last, keys);
    ExpandSound(rest, keys, state, dice, c);
    var r, k :| r in rest && k in keys && k.vendor == r.vendor && state(k).Ready? && c == CandidateOf(r, k);
    assert r in rest + [last] && last in rest + [last];
    var i :| 0 <= i < |rest| && rest[i] == r;
    assert (rest + [last])[i] == r && (rest + [last])[|rest|] == last;
  }

  lemma {:induction false} ExpandContiguous(rows: seq<Row>, keys: seq<Key>, state: Key -> KeyState,
                                            dice: int -> nat -> nat)
    requires Unique(rows, keys) && Descending(rows)
    ensures Contiguous(Expand(rows, keys, state, dice)) && Falling(Expand(rows, keys, state, dice))
  {
    hide ChannelCandidates, Unique, Contiguous, Falling;
    if rows == [] {
      EmptyContiguous();
    } else {
      var rest, last := rows[..|rows| - 1], rows[|rows| - 1];
      assert rows == rest + [last];
      UniqueRest(rest, last, keys);
      ExpandContiguous(rest, keys, state, dice);
      var before, block := Expand(rest, keys, state, dice), ChannelCandidates(last, keys, state, dice(last.channel));
      forall i | 0 <= i < |block| ensures block[i].channel == last.channel && block[i].priority == last.priority {
        ChannelSound(last, keys, state, dice(last.channel), block[i]);
      }
      forall i | 0 <= i < |before| ensures before[i].channel != last.channel && before[i].priority >= last.priority {
        ElsewhereBefore(rest, last, keys, state, dice, before[i]);
      }
      BlockAppended(before, block, last);
    }
  }

  lemma EmptyContiguous()
    ensures Contiguous([]) && Falling([])
  {
  }

  lemma UniquePermuted(rows: seq<Row>, ordered: seq<Row>, keys: seq<Key>)
    requires Unique(rows, keys) && multiset(ordered) == multiset(Valid(rows)) && Descending(rows)
    ensures Unique(ordered, keys) && forall r :: r in ordered <==> r in rows && r.routable
  {
    forall r ensures r in ordered <==> r in rows && r.routable {
      ValidDescending(rows);
      assert r in ordered <==> r in multiset(ordered);
      assert r in Valid(rows) <==> r in multiset(Valid(rows));
    }
    forall r | r in ordered ensures multiset(ordered)[r] == 1 {
      ValidCount(rows, r);
    }
  }

  lemma {:induction false} ValidCount(rows: seq<Row>, r: Row)
    ensures multiset(Valid(rows))[r] == if r.routable then multiset(rows)[r] else 0
  {
    if rows != [] {
      ValidCount(rows[..|rows| - 1], r);
      assert rows == rows[..|rows| - 1] + [rows[|rows| - 1]];
    }
  }

  ghost predicate Exactly(cands: seq<Candidate>, rows: seq<Row>, keys: seq<Key>, state: Key -> KeyState) {
    && (forall r, k :: r in rows && k in keys ==>
          multiset(cands)[CandidateOf(r, k)] == if r.routable && k.vendor == r.vendor && state(k).Ready? then 1 else 0)
    && (forall c :: c in cands ==> exists r, k :: r in rows && k in keys && c == CandidateOf(r, k))
    && Falling(cands) && Contiguous(cands)
  }

  /** For every draw: each pair of a routable channel and a ready key of its vendor is a candidate
      exactly once and nothing else is, the priority never rises, and the candidates of a channel
      stand together. */
  lemma CandidatesExact(rows: seq<Row>, keys: seq<Key>, state: Key -> KeyState, dice: int -> nat -> nat,
                        ordered: seq<Row>)
    requires Descending(rows) && Unique(rows, keys)
    requires multiset(ordered) == multiset(Valid(rows)) && Descending(ordered)
    ensures Exactly(Expand(ordered, keys, state, dice), rows, keys, state)
  {
    UniquePermuted(rows, ordered, keys);
    ExpandContiguous(ordered, keys, state, dice);
    var cands := Expand(ordered, keys, state, dice);
    forall r, k | r in rows && k in keys
      ensures multiset(cands)[CandidateOf(r, k)]
           == if r.routable && k.vendor == r.vendor && state(k).Ready? then 1 else 0 {
      ExpandCount(ordered, keys, state, dice, r, k);
    }
    forall c | c in cands ensures exists r, k :: r in rows && k in keys && c == CandidateOf(r, k) {
      ExpandSound(ordered, keys, state, dice, c);
    }
  }

  // ---- Telling undecryptable keys from busy ones ----

  function KeyedRows(rows: seq<Row>, keys: seq<Key>): nat {
    if rows == [] then 0
    else KeyedRows(rows[..|rows| - 1], keys) + if Pool(keys, rows[|rows| - 1].vendor) != [] then 1 else 0
  }

  /** Every vendor with keys has one channel among the rows. */
  predicate OneChannelEach(rows: seq<Row>, keys: seq<Key>) {
    forall i, j :: 0 <= i < j < |rows| && Pool(keys, rows[i].vendor) != [] ==> rows[i].vendor != rows[j].vendor
  }

  /** What the error should mean: there are keys, and none of any vendor can be decrypted. */
  predicate AllFail(rows: seq<Row>, keys: seq<Key>, state: Key -> KeyState) {
    Keyed(rows, keys) != {} && forall r :: r in rows && Pool(keys, r.vendor) != [] ==> Failing(r.vendor, keys, state)
  }

  /** What the program tests: channels failing, against vendors with keys. */
  predicate DecryptTest(rows: seq<Row>, keys: seq<Key>, state: Key -> KeyState) {
    SumFailing(rows, keys, state) > 0 && SumFailing(rows, keys, state) == |Keyed(rows, keys)|
  }

  lemma OneChannelEachSnoc(rest: seq<Row>, last: Row, keys: seq<Key>)
    ensures OneChannelEach(rest + [last], keys) <==> OneChannelEach(rest, keys) && last.vendor !in Keyed(rest, keys)
  {
    hide Pool;
    var rows := rest + [last];
    if last.vendor in Keyed(rest, keys) {
      var r :| r in rest && Pool(keys, r.vendor) != [] && r.vendor == last.vendor;
      var i :| 0 <= i < |rest| && rest[i] == r;
      assert rows[i] == r && rows[|rest|] == last;
    } else {
      forall i | 0 <= i < |rest| && Pool(keys, rows[i].vendor) != [] ensures rows[i].vendor != last.vendor {
        assert rest[i] in rest && rest[i].vendor in Keyed(rest, keys);
      }
      assert forall i :: 0 <= i < |rest| ==> rows[i] == rest[i];
    }
  }

  lemma {:induction false} KeyedAtMostRows(rows: seq<Row>, keys: seq<Key>)
    ensures |Keyed(rows, keys)| <= KeyedRows(rows, keys)
    ensures |Keyed(rows, keys)| == KeyedRows(rows, keys) <==> OneChannelEach(rows, keys)
  {
    hide Pool;
    if rows == [] {
      assert Keyed(rows, keys) == {};
    } else {
      hide Keyed, OneChannelEach;
      var n := |rows| - 1;
      KeyedAtMostRows(rows[..n], keys);
      KeyedSnoc(rows, n, keys);
      assert rows[..n + 1] == rows == rows[..n] + [rows[n]];
      OneChannelEachSnoc(rows[..n], rows[n], keys);
      KeyedMeansPool(rows[..n], keys);
    }
  }

  lemma KeyedMeansPool(rows: seq<Row>, keys: seq<Key>)
    ensures forall v :: v in Keyed(rows, keys) ==> Pool(keys, v) != []
  {
  }

  lemma {:induction false} FailingAtMostKeyed(rows: seq<Row>, keys: seq<Key>, state: Key -> KeyState)
    ensures SumFailing(rows, keys, state) <= KeyedRows(rows, keys)
    ensures SumFailing(rows, keys, state) == KeyedRows(rows, keys)
            <==> forall r :: r in rows && Pool(keys, r.vendor) != [] ==> Failing(r.vendor, keys, state)
  {
    hide Pool, Usable, CoolingIn;
    if rows != [] {
      var rest, last := rows[..|rows| - 1], rows[|rows| - 1];
      FailingAtMostKeyed(rest, keys, state);
      assert rows == rest + [last];
    }
  }

  lemma DecryptTestOf(rows: seq<Row>, keys: seq<Key>, state: Key -> KeyState)
    ensures OneChannelEach(rows, keys) ==> (DecryptTest(rows, keys, state) <==> AllFail(rows, keys, state))
    ensures AllFail(rows, keys, state) ==> (DecryptTest(rows, keys, state) <==> OneChannelEach(rows, keys))
  {
    hide Failing, OneChannelEach;
    KeyedAtMostRows(rows, keys);
    FailingAtMostKeyed(rows, keys, state);
  }

  function Broken(k: Key): KeyState { Undecryptable }

  lemma {:induction false} BrokenPool(pool: seq<Key>)
    ensures Usable(pool, Broken) == [] && CoolingIn(pool, Broken, false) == 0
  {
    if pool != [] { BrokenPool(pool[..|pool| - 1]); }
  }

  lemma BrokenFails(rows: seq<Row>, keys: seq<Key>)
    ensures AllFail(rows, keys, Broken) <==> Keyed(rows, keys) != {}
  {
    forall r | r in rows && Pool(keys, r.vendor) != [] ensures Failing(r.vendor, keys, Broken) {
      BrokenPool(Pool(keys, r.vendor));
    }
  }

  /** The test tells the truth in every state of the keys exactly when each vendor with keys has one
      channel. */
  lemma DecryptTestExact(rows: seq<Row>, keys: seq<Key>)
    ensures (forall state :: DecryptTest(rows, keys, state) <==> AllFail(rows, keys, state))
       <==> OneChannelEach(rows, keys)
  {
    hide DecryptTest, AllFail, OneChannelEach;
    forall state ensures OneChannelEach(rows, keys) ==>
      (DecryptTest(rows, keys, state) <==> AllFail(rows, keys, state)) {
      DecryptTestOf(rows, keys, state);
    }
    DecryptTestOf(rows, keys, Broken);
    BrokenFails(rows, keys);
    SomeKeyed(rows, keys);
  }

  lemma SomeKeyed(rows: seq<Row>, keys: seq<Key>)
    ensures OneChannelEach(rows, keys) || Keyed(rows, keys) != {}
  {
    hide Pool;
    if !OneChannelEach(rows, keys) {
      var i, j :| 0 <= i < j < |rows| && Pool(keys, rows[i].vendor) != [] && rows[i].vendor == rows[j].vendor;
      assert rows[i].vendor in Keyed(rows, keys);
    }
  }

  const ALARM_ROWS := [Row(1, 1, 1, 0, true), Row(2, 1, 1, 0, true), Row(3, 2, 1, 0, true)]

  const ALARM_KEYS := [Key(1, 1, 1), Key(2, 2, 1)]

  function AlarmState(k: Key): KeyState { if k.id == 1 then Undecryptable else Cooling(false) }

  lemma AlarmPools()
    ensures Pool(ALARM_KEYS, 1) == [ALARM_KEYS[0]] && Pool(ALARM_KEYS, 2) == [ALARM_KEYS[1]]
    ensures Failing(1, ALARM_KEYS, AlarmState) && !Failing(2, ALARM_KEYS, AlarmState)
  {
    var keys := ALARM_KEYS;
    assert keys[..1] == [keys[0]] && keys[..1][..0] == [];
    assert Pool(keys[..1], 1) == [keys[0]] && Pool(keys[..1], 2) == [];
    assert [keys[0]][..0] == [] && [keys[1]][..0] == [];
  }

  lemma AlarmSums()
    ensures SumFailing(ALARM_ROWS, ALARM_KEYS, AlarmState) == 2 && Keyed(ALARM_ROWS, ALARM_KEYS) == {1, 2}
  {
    AlarmPools();
    hide Pool, Failing;
    var rows := ALARM_ROWS;
    assert rows[..2][..1][..0] == [] && rows[..2][..1] == rows[..1];
    assert SumFailing(rows[..1], ALARM_KEYS, AlarmState) == 1;
    assert SumFailing(rows[..2], ALARM_KEYS, AlarmState) == 2;
    assert rows[2] in rows && rows[0] in rows;
  }

  /** A vendor with two channels and a broken key, another whose only key is just cooling: the test
      blames the keys, though waiting would help. */
  lemma FalseDecryptAlarm()
    ensures DecryptTest(ALARM_ROWS, ALARM_KEYS, AlarmState) && !AllFail(ALARM_ROWS, ALARM_KEYS, AlarmState)
  {
    AlarmPools();
    AlarmSums();
    hide Pool, Failing, SumFailing, Keyed;
    assert ALARM_ROWS[2] in ALARM_ROWS;
  }
}
