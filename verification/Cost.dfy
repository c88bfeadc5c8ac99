/** Billing arithmetic (internal/gateway/handler.go). */
module Cost {
  import opened Words

  const MAX_USAGE_TOKENS: int64 := 10_000_000_000
  const MAX_USAGE_POINTS: int64 := 1_000_000_000_000_000
  const MILLION: uint64 := 1_000_000

  function ClampTokens(n: int64): (r: int64)
    ensures 0 <= r <= MAX_USAGE_TOKENS
    ensures 0 <= n <= 10_000_000_000 ==> r == n
    ensures n < 0 ==> r == 0
    ensures n > 10_000_000_000 ==> r == 10_000_000_000
  {
    if n < 0 then 0 else if n > MAX_USAGE_TOKENS then MAX_USAGE_TOKENS else n
  }

  function ClampPrice(p: int64): (r: int64)
    ensures 0 <= r
    ensures p >= 0 ==> r == p
  {
    if p < 0 then 0 else p
  }

  /** a*b + c*d + e*f as a double word, computed with wrap-around word additions and two
      carry tests. */
  function MulAdd128(a: int64, b: int64, c: int64, d: int64, e: int64, f: int64): (r: (uint64, uint64))
    requires 0 <= a && 0 <= b && 0 <= c && 0 <= d && 0 <= e && 0 <= f
    ensures r.0 * TWO64 + r.1 == Charge(a, b) + Charge(c, d) + Charge(e, f)
  {
    hide Charge, Mul64;
    var (hi1, lo1) := Mul64(ToU64(a), ToU64(b));
    var (hi2, lo2) := Mul64(ToU64(c), ToU64(d));
    var (hi3, lo3) := Mul64(ToU64(e), ToU64(f));
    var lo12 := Add64(lo1, lo2);
    var carry1: uint64 := if lo12 < lo1 then 1 else 0;
    var lo := Add64(lo12, lo3);
    var carry2 := if lo < lo3 then Add64(carry1, 1) else carry1;
    ProductWords(a, b); ProductWords(c, d); ProductWords(e, f);
    (Add64(Add64(Add64(hi1, hi2), hi3), carry2), lo)
  }

  /** A product of two non-negative int64 leaves the top two bits of the high word clear, so
      three high words and two carries cannot wrap. */
  lemma ProductWords(a: int64, b: int64)
    requires 0 <= a && 0 <= b
    ensures var (hi, lo) := Mul64(a, b); hi * TWO64 + lo == Charge(a, b) && hi < TWO64 / 4
  {
    MulMono(a, TWO63 - 1, b, TWO63 - 1);
  }

  function CalcCostCached(promptTokens: int64, cachedTokens: int64, completionTokens: int64,
                          inputPrice: int64, cacheHitPrice: int64, outputPrice: int64): (r: int64)
    ensures r == FairCost(promptTokens, cachedTokens, completionTokens, inputPrice, cacheHitPrice, outputPrice)
  {
    hide Charge, MulAdd128, Div64;
    var pt, ct := ClampTokens(promptTokens), ClampTokens(completionTokens);
    var hit0 := ClampTokens(cachedTokens);
    var hit := if hit0 > pt then pt else hit0;
    var ip, chp0, op := ClampPrice(inputPrice), ClampPrice(cacheHitPrice), ClampPrice(outputPrice);
    var chp := if chp0 == 0 then ip else chp0;
    var (hi, lo) := MulAdd128(pt - hit, ip, hit, chp, ct, op);
    if hi >= MILLION then
      BeyondWord(hi, lo);
      MAX_USAGE_POINTS
    else
      var (q, r) := Div64(hi, lo, MILLION);
      CeilFromDivMod(hi * TWO64 + lo, q, r);
      if q > MAX_USAGE_POINTS || (q == MAX_USAGE_POINTS && r > 0) then MAX_USAGE_POINTS
      else if r > 0 then q + 1
      else q
  }

  function CalcCost(promptTokens: int64, completionTokens: int64, inputPrice: int64, outputPrice: int64): (r: int64)
    ensures r == FairCost(promptTokens, 0, completionTokens, inputPrice, 0, outputPrice)
  {
    CalcCostCached(promptTokens, 0, completionTokens, inputPrice, 0, outputPrice)
  }

  // ---- The bill as the price list states it, over unbounded integers ----

  /** Whole points for millionths of a point, rounded up. */
  function CeilPoints(x: nat): (r: nat)
    ensures x <= r * MILLION < x + MILLION
  {
    (x + MILLION - 1) / MILLION
  }

  /** Prompt tokens billed at the cache price: part of the prompt, never more. */
  function BilledHits(promptTokens: int64, cachedTokens: int64): nat {
    Min(ClampTokens(promptTokens), ClampTokens(cachedTokens))
  }

  /** What one cached prompt token costs: price 0 means no cache price is configured. */
  function HitPrice(inputPrice: int64, cacheHitPrice: int64): nat {
    if cacheHitPrice > 0 then cacheHitPrice else ClampPrice(inputPrice)
  }

  function Charge(tokens: nat, price: nat): nat { tokens * price }

  /** Millionths of a point owed. */
  function Owed(promptTokens: int64, cachedTokens: int64, completionTokens: int64,
                inputPrice: int64, cacheHitPrice: int64, outputPrice: int64): nat {
    var hits := BilledHits(promptTokens, cachedTokens);
    Charge(ClampTokens(promptTokens) - hits, ClampPrice(inputPrice))
    + Charge(hits, HitPrice(inputPrice, cacheHitPrice))
    + Charge(ClampTokens(completionTokens), ClampPrice(outputPrice))
  }

  function FairCost(promptTokens: int64, cachedTokens: int64, completionTokens: int64,
                    inputPrice: int64, cacheHitPrice: int64, outputPrice: int64): (r: int64)
    ensures 0 <= r <= MAX_USAGE_POINTS
  {
    Min(MAX_USAGE_POINTS,
        CeilPoints(Owed(promptTokens, cachedTokens, completionTokens, inputPrice, cacheHitPrice, outputPrice)))
  }

  // ---- Word arithmetic against the price list ----

  lemma CeilFromDivMod(x: nat, q: nat, r: nat)
    requires x == q * MILLION + r && r < MILLION
    ensures CeilPoints(x) == if r > 0 then q + 1 else q
  {
  }

  lemma BeyondWord(hi: uint64, lo: uint64)
    requires hi >= MILLION
    ensures CeilPoints(hi * TWO64 + lo) >= MAX_USAGE_POINTS
  {
  }

  // ---- What the bill promises ----

  /** The whole points for so many millionths of one: rounded up, and 10^15 at most. */
  predicate Points(bill: int, owed: int) {
    if owed <= 1_000_000_000_000_000 * 1_000_000 then owed <= bill * 1_000_000 < owed + 1_000_000
    else bill == 1_000_000_000_000_000
  }

  /** A figure cut to the range billed: from 0 to ten thousand million tokens. */
  predicate Cut(raw: int, billed: int) {
    && 0 <= billed <= 10_000_000_000
    && (0 <= raw <= 10_000_000_000 ==> billed == raw)
    && (raw < 0 ==> billed == 0) && (raw > 10_000_000_000 ==> billed == 10_000_000_000)
  }

  /** The bill: prompt tokens at the input price but those from a cache, at most all, at the cache price
      if there is one; completion tokens at the output price; a negative price counting as none. */
  lemma BillExact(pt: int64, hit: int64, ct: int64, ip: int64, chp: int64, op: int64, p: nat, h: nat, c: nat)
    requires Cut(pt, p) && Cut(ct, c) && (if hit <= pt then Cut(hit, h) else h == p)
    ensures var input, output := if ip > 0 then ip else 0, if op > 0 then op else 0;
            Points(CalcCostCached(pt, hit, ct, ip, chp, op),
                   (p - h) * input + h * (if chp > 0 then chp else input) + c * output)
  {
    var owed := Owed(pt, hit, ct, ip, chp, op);
    CeilBound(owed);
    assert BilledHits(pt, hit) == h;
  }

  lemma CeilBound(owed: nat)
    ensures Points(Min(MAX_USAGE_POINTS, CeilPoints(owed)), owed)
  {
  }

  lemma CeilMono(x: nat, y: nat)
    requires x <= y
    ensures CeilPoints(x) <= CeilPoints(y)
  {
  }

  lemma ChargeMono(a: nat, b: nat, price: nat)
    requires a <= b
    ensures Charge(a, price) <= Charge(b, price)
  {
    MulMono(a, b, price, price);
  }

  lemma ChargeSplit(a: nat, b: nat, price: nat)
    ensures Charge(a + b, price) == Charge(a, price) + Charge(b, price)
  {
  }

  lemma ChargePositive(tokens: nat, price: nat)
    ensures Charge(tokens, price) > 0 <==> tokens > 0 && price > 0
  {
    if tokens > 0 && price > 0 { MulMono(1, tokens, 1, price); }
  }

  /** More tokens never cost less, whatever the cache price. */
  lemma CostMonotone(pt: int64, pt': int64, hit: int64, ct: int64, ct': int64, ip: int64, chp: int64, op: int64)
    requires pt <= pt' && ct <= ct'
    ensures FairCost(pt, hit, ct, ip, chp, op) <= FairCost(pt', hit, ct', ip, chp, op)
  {
    hide Charge;
    var h, h' := BilledHits(pt, hit), BilledHits(pt', hit);
    ChargeMono(ClampTokens(pt) - h, ClampTokens(pt') - h', ClampPrice(ip));
    ChargeMono(h, h', HitPrice(ip, chp));
    ChargeMono(ClampTokens(ct), ClampTokens(ct'), ClampPrice(op));
    CeilMono(Owed(pt, hit, ct, ip, chp, op), Owed(pt', hit, ct', ip, chp, op));
  }

  /** A request is free exactly when nothing priced was used: no debt is rounded to 0. */
  lemma CostPositive(pt: int64, hit: int64, ct: int64, ip: int64, chp: int64, op: int64)
    ensures FairCost(pt, hit, ct, ip, chp, op) > 0 <==>
            (BilledHits(pt, hit) < ClampTokens(pt) && ip > 0)
            || (BilledHits(pt, hit) > 0 && HitPrice(ip, chp) > 0)
            || (ct > 0 && op > 0)
  {
    hide Charge;
    ChargePositive(ClampTokens(pt) - BilledHits(pt, hit), ClampPrice(ip));
    ChargePositive(BilledHits(pt, hit), HitPrice(ip, chp));
    ChargePositive(ClampTokens(ct), ClampPrice(op));
  }

  /** Without a cache price, cached tokens do not change the bill: CalcCostCached is CalcCost. */
  lemma NoCachePrice(pt: int64, hit: int64, ct: int64, ip: int64, chp: int64, op: int64)
    requires chp <= 0
    ensures FairCost(pt, hit, ct, ip, chp, op) == FairCost(pt, 0, ct, ip, 0, op)
  {
    hide Charge;
    var p, h := ClampPrice(ip), BilledHits(pt, hit);
    ChargeSplit(ClampTokens(pt) - h, h, p);
    ChargeSplit(ClampTokens(pt), 0, p);
  }

  /** Splitting a request never makes it cheaper: the whole is billed at most the sum of its parts. */
  lemma SplittingNeverSaves(pt1: int64, ct1: int64, pt2: int64, ct2: int64, ip: int64, op: int64)
    requires 0 <= pt1 && 0 <= ct1 && 0 <= pt2 && 0 <= ct2
    requires pt1 + pt2 < TWO63 && ct1 + ct2 < TWO63
    ensures FairCost(pt1 + pt2, 0, ct1 + ct2, ip, 0, op)
        <= FairCost(pt1, 0, ct1, ip, 0, op) + FairCost(pt2, 0, ct2, ip, 0, op)
  {
    hide Charge;
    var x, y := Owed(pt1, 0, ct1, ip, 0, op), Owed(pt2, 0, ct2, ip, 0, op);
    var z := Owed(pt1 + pt2, 0, ct1 + ct2, ip, 0, op);
    assert z <= x + y by {
      ChargeParts(ClampTokens(pt1 + pt2), ClampTokens(pt1), ClampTokens(pt2), ClampPrice(ip));
      ChargeParts(ClampTokens(ct1 + ct2), ClampTokens(ct1), ClampTokens(ct2), ClampPrice(op));
    }
    CeilMono(z, x + y);
  }

  lemma ChargeParts(t: nat, a: nat, b: nat, price: nat)
    requires t <= a + b
    ensures Charge(t, price) <= Charge(a, price) + Charge(b, price)
  {
    hide Charge;
    ChargeMono(t, a + b, price);
    ChargeSplit(a, b, price);
  }

  /** The clamped figures of a usage row give the bill of the raw ones. */
  lemma ClampedBillSame(pt: int64, hit: int64, ct: int64, ip: int64, chp: int64, op: int64)
    ensures FairCost(ClampTokens(pt), BilledHits(pt, hit), ClampTokens(ct), ip, chp, op)
        == FairCost(pt, hit, ct, ip, chp, op)
  {
    hide Charge;
  }
}
