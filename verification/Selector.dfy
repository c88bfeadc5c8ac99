/** From the channels of a model and the key pools of their vendors to the list of candidates
    (internal/gateway/selector.go). */
module Selector {
  datatype Row = Row(channel: int, vendor: nat, weight: int, priority: int, routable: bool)

  datatype Key = Key(id: nat, vendor: nat, weight: int)

  datatype KeyState = Ready | Cooling(forQuota: bool) | Undecryptable

  // ---- Weighted shuffle ----

  function IntWeight(w: int): (r: nat)
    ensures r > 0
  {
    if w <= 0 then 1 else w
  }

  function Total(weights: seq<int>): nat {
    if weights == [] then 0 else Total(weights[..|weights| - 1]) + IntWeight(weights[|weights| - 1])
  }

  /** The item a draw falls on, going through them from the first. */
  function Pick(weights: seq<int>, draw: int): nat {
    if weights == [] then 0
    else if draw - IntWeight(weights[0]) < 0 then 0
    else 1 + Pick(weights[1..], draw - IntWeight(weights[0]))
  }

  function Drop<T>(s: seq<T>, k: nat): (r: seq<T>)
    requires k < |s|
    ensures |r| == |s| - 1
  {
    s[..k] + s[k + 1..]
  }

  /** Draws without replacement; `dice` gives any number in each round. */
  function Shuffle<T>(items: seq<T>, weight: T -> int, dice: nat -> nat): seq<T>
    decreases |items|
  {
    if items == [] then []
    else
      var k := Choose(items, weight, dice(|items|));
      [items[k]] + Shuffle(Drop(items, k), weight, dice)
  }

  function Weights<T>(items: seq<T>, weight: T -> int): seq<int> {
    seq(|items|, i requires 0 <= i < |items| => weight(items[i]))
  }

  /** `rand.Intn(total)` is the number reduced to the range. */
  function Choose<T>(items: seq<T>, weight: T -> int, number: nat): (k: nat)
    requires items != []
    ensures k < |items|
  {
    var ws := Weights(items, weight);
    TotalPositive(ws);
    PickInRange(ws, number % Total(ws));
    Pick(ws, number % Total(ws))
  }

  lemma TotalPositive(ws: seq<int>)
    requires ws != []
    ensures Total(ws) > 0
  {
  }

  lemma {:induction false} TotalCons(w: int, ws: seq<int>)
    ensures Total([w] + ws) == IntWeight(w) + Total(ws)
  {
    if ws == [] {
      assert Total([w]) == Total([w][..0]) + IntWeight(w);
      assert [w] + ws == [w];
    } else {
      TotalCons(w, ws[..|ws| - 1]);
      assert ([w] + ws)[..|ws|] == [w] + ws[..|ws| - 1];
    }
  }

  lemma {:induction false} PickInRange(ws: seq<int>, draw: nat)
    requires draw < Total(ws)
    ensures Pick(ws, draw) < |ws|
  {
    assert ws == [ws[0]] + ws[1..];
    TotalCons(ws[0], ws[1..]);
    if draw >= IntWeight(ws[0]) { PickInRange(ws[1..], draw - IntWeight(ws[0])); }
  }

  /** The weights added up, none counted for less than one. */
  function WeightSum(ws: seq<int>): nat {
    if ws == [] then 0 else WeightSum(ws[..|ws| - 1]) + if ws[|ws| - 1] > 0 then ws[|ws| - 1] else 1
  }

  lemma {:induction false} TotalIsSum(ws: seq<int>)
    ensures Total(ws) == WeightSum(ws)
  {
    if ws != [] { TotalIsSum(ws[..|ws| - 1]); }
  }

  /** A number falls on item k: reduced to the sum of the weights, it lies between the sums of those
      before k and up to k. */
  predicate Falls(ws: seq<int>, number: nat, k: nat) {
    k < |ws| && WeightSum(ws) > 0 && WeightSum(ws[..k]) <= number % WeightSum(ws) < WeightSum(ws[..k + 1])
  }

  /** Item k is picked by exactly as many consecutive draws as it weighs. */
  lemma {:induction false} PickExactly(ws: seq<int>, draw: nat, k: nat)
    requires draw < Total(ws) && k < |ws|
    ensures Pick(ws, draw) == k
       <==> WeightSum(ws[..k]) <= draw < WeightSum(ws[..k]) + if ws[k] > 0 then ws[k] else 1
    decreases |ws|
  {
    TotalIsSum(ws[..k]);
    assert ws == [ws[0]] + ws[1..];
    TotalCons(ws[0], ws[1..]);
    if k == 0 {
      assert ws[..0] == [];
    } else {
      assert ws[..k] == [ws[0]] + ws[1..][..k - 1];
      TotalCons(ws[0], ws[1..][..k - 1]);
      TotalIsSum(ws[1..][..k - 1]);
      if draw >= IntWeight(ws[0]) { PickExactly(ws[1..], draw - IntWeight(ws[0]), k - 1); }
    }
  }

  /** The draws, out of all there are, that pick item k. */
  function DrawsFor(ws: seq<int>, k: nat): set<int> {
    set draw | 0 <= draw < Total(ws) && Pick(ws, draw) == k
  }

  /** So the odds are the weights, a weight that is not positive counting as one. */
  lemma PickOdds(ws: seq<int>, k: nat)
    requires k < |ws|
    ensures Total(ws) == WeightSum(ws)
    ensures |DrawsFor(ws, k)| == if ws[k] > 0 then ws[k] else 1
  {
    TotalIsSum(ws);
    var draws := DrawsFor(ws, k);
    var span := Interval(Total(ws[..k]), IntWeight(ws[k]));
    PrefixTotal(ws, k);
    TotalIsSum(ws[..k]);
    forall draw | 0 <= draw < Total(ws) ensures draw in draws <==> draw in span {
      PickExactly(ws, draw, k);
    }
    assert draws == span;
  }

  function Interval(lo: int, n: nat): (r: set<int>)
    ensures |r| == n && forall x :: x in r <==> lo <= x < lo + n
  {
    if n == 0 then {}
    else
      var s, x := Interval(lo, n - 1), lo + n - 1;
      assert x !in s;
      s + {x}
  }

  lemma {:induction false} PrefixTotal(ws: seq<int>, k: nat)
    requires k < |ws|
    ensures Total(ws[..k]) + IntWeight(ws[k]) <= Total(ws)
  {
    if k < |ws| - 1 {
      PrefixTotal(ws[..|ws| - 1], k);
      assert ws[..|ws| - 1][..k] == ws[..k];
    }
  }

  /** The first place goes to the item the first number falls on; the others are shuffled likewise. */
  lemma FirstDrawn<T>(items: seq<T>, weight: T -> int, dice: nat -> nat, k: nat)
    requires Falls(Weights(items, weight), dice(|items|), k)
    ensures Shuffle(items, weight, dice) == [items[k]] + Shuffle(items[..k] + items[k + 1..], weight, dice)
  {
    hide Shuffle;
    var ws := Weights(items, weight);
    TotalIsSum(ws);
    assert ws[..k + 1][..k] == ws[..k];
    PickExactly(ws, dice(|items|) % Total(ws), k);
    ShuffleStep(items, weight, dice);
  }

  method TotalWeight<T>(left: seq<T>, weight: T -> int) returns (total: nat)
    ensures total == Total(Weights(left, weight))
  {
    total := 0;
    ghost var ws := Weights(left, weight);
    for k := 0 to |left|
      invariant total == Total(ws[..k])
    {
      total := total + IntWeight(weight(left[k]));
      assert ws[..k + 1][..k] == ws[..k];
    }
    assert ws[..|left|] == ws;
  }

  method PickPosition<T>(left: seq<T>, weight: T -> int, draw: nat) returns (pos: nat)
    requires draw < Total(Weights(left, weight))
    ensures pos == Pick(Weights(left, weight), draw)
  {
    ghost var ws := Weights(left, weight);
    PickInRange(ws, draw);
    var pick: int := draw;
    pos := 0;
    assert ws[0..] == ws;
    for k := 0 to |left|
      invariant pick >= 0 && Pick(ws, draw) == k + Pick(ws[k..], pick)
    {
      pick := pick - IntWeight(weight(left[k]));
      assert ws[k..][1..] == ws[k + 1..];
      if pick < 0 { return k; }
    }
    assert false;
  }

  /** The loop of the program: positions of items not yet drawn, one removed a round. */
  method WeightedShuffle<T>(items: seq<T>, weight: T -> int, dice: nat -> nat) returns (out: seq<T>)
    ensures out == Shuffle(items, weight, dice)
  {
    hide Pick, Total, Weights, Choose, Shuffle;
    if |items| <= 1 {
      ShuffleFew(items, weight, dice);
      return items;
    }
    var remaining := seq(|items|, i => i);
    out := [];
    assert Left(items, remaining) == items;
    while |remaining| > 0
      invariant forall k :: 0 <= k < |remaining| ==> 0 <= remaining[k] < |items|
      invariant out + Shuffle(Left(items, remaining), weight, dice) == Shuffle(items, weight, dice)
      decreases |remaining|
    {
      var left := Left(items, remaining);
      var total := TotalWeight(left, weight);
      WeightsLeft(left, weight);
      var pos := PickPosition(left, weight, dice(|remaining|) % total);
      ChooseIsPick(left, weight, dice(|left|));
      ShuffleStep(left, weight, dice);
      out := out + [items[remaining[pos]]];
      assert Drop(left, pos) == Left(items, Drop(remaining, pos));
      remaining := remaining[..pos] + remaining[pos + 1..];
    }
    ShuffleFew(Left(items, remaining), weight, dice);
  }

  lemma ShuffleStep<T>(items: seq<T>, weight: T -> int, dice: nat -> nat)
    requires items != []
    ensures var k := Choose(items, weight, dice(|items|));
            Shuffle(items, weight, dice) == [items[k]] + Shuffle(Drop(items, k), weight, dice)
  {
  }

  lemma ShuffleFew<T>(items: seq<T>, weight: T -> int, dice: nat -> nat)
    requires |items| <= 1
    ensures Shuffle(items, weight, dice) == items
  {
    if |items| == 1 { assert Drop(items, 0) == []; }
  }

  lemma ChooseIsPick<T>(left: seq<T>, weight: T -> int, number: nat)
    requires left != []
    ensures Total(Weights(left, weight)) > 0
    ensures Choose(left, weight, number) == Pick(Weights(left, weight), number % Total(Weights(left, weight)))
  {
    TotalPositive(Weights(left, weight));
  }

  lemma WeightsLeft<T>(left: seq<T>, weight: T -> int)
    requires left != []
    ensures Total(Weights(left, weight)) > 0
  {
    TotalPositive(Weights(left, weight));
  }

  function Left<T>(items: seq<T>, remaining: seq<int>): seq<T>
    requires forall k :: 0 <= k < |remaining| ==> 0 <= remaining[k] < |items|
  {
    seq(|remaining|, k requires 0 <= k < |remaining| => items[remaining[k]])
  }

  lemma DropMultiset<T>(items: seq<T>, k: nat)
    requires k < |items|
    ensures multiset([items[k]]) + multiset(Drop(items, k)) == multiset(items)
  {
    assert items == items[..k] + [items[k]] + items[k + 1..];
  }

  /** For every draw the result is a permutation. */
  lemma {:induction false} ShufflePermutes<T>(items: seq<T>, weight: T -> int, dice: nat -> nat)
    ensures multiset(Shuffle(items, weight, dice)) == multiset(items)
    decreases |items|
  {
    hide Choose, Drop;
    if items != [] {
      var k := Choose(items, weight, dice(|items|));
      var rest := Shuffle(Drop(items, k), weight, dice);
      ShufflePermutes(Drop(items, k), weight, dice);
      DropMultiset(items, k);
      assert Shuffle(items, weight, dice) == [items[k]] + rest;
    }
  }
}
