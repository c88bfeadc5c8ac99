/** The usage row of one call and how the upstream's usage is entered in it
    (internal/gateway/handler.go). */
module UsageRow {
  import opened Words
  import opened Chunks
  import opened Cost

  datatype Tariff = Tariff(input: int64, output: int64, cacheHit: int64)

  /** What a call costs by the figures as the upstream sent them, cached tokens in either dialect. */
  lemma BillAsSent(u: Usage, t: Tariff, p: nat, h: nat, c: nat)
    requires Cut(u.promptTokens, p) && Cut(u.completionTokens, c)
    requires var details := u.detailsCachedTokens;
             var hit := if details.Some? && details.value > u.promptCacheHitTokens then details.value
                        else u.promptCacheHitTokens;
             if hit <= u.promptTokens then Cut(hit, h) else h == p
    ensures var input, output := if t.input > 0 then t.input else 0, if t.output > 0 then t.output else 0;
            Points(FairCost(u.promptTokens, u.CachedTokens(), u.completionTokens, t.input, t.cacheHit, t.output),
                   (p - h) * input + h * (if t.cacheHit > 0 then t.cacheHit else input) + c * output)
  {
    hide Points, FairCost, Cut;
    BillExact(u.promptTokens, u.CachedTokens(), u.completionTokens, t.input, t.cacheHit, t.output, p, h, c);
  }

  class UsageLog {
    var promptTokens: int64
    var completionTokens: int64
    var cachedTokens: int64
    var sale: Tariff
    var purchase: Tariff
    var cost: int64
    var vendorCost: int64
    var noUsage: int

    constructor ()
      ensures Reproducible() && cost == 0 && vendorCost == 0 && noUsage == 0
    {
      promptTokens, completionTokens, cachedTokens := 0, 0, 0;
      sale, purchase := Tariff(0, 0, 0), Tariff(0, 0, 0);
      cost, vendorCost, noUsage := 0, 0, 0;
    }

    /** Both costs can be recomputed from the figures and prices of the row itself, so a later
        change of prices does not reach it. */
    ghost predicate Reproducible()
      reads this
    {
      && cost == FairCost(promptTokens, cachedTokens, completionTokens, sale.input, sale.cacheHit, sale.output)
      && vendorCost == FairCost(promptTokens, cachedTokens, completionTokens, purchase.input, purchase.cacheHit,
            purchase.output)
    }

    /** The bill is that of the raw figures; the row keeps them clamped. Without usage only the
        marker is set. */
    method ApplyUsage(usage: Option<Usage>, saleNow: Tariff, purchaseNow: Tariff)
      modifies this
      ensures usage.Some? || old(Reproducible()) ==> Reproducible()
      ensures usage.None? ==>
        noUsage == 1 && cost == old(cost) && vendorCost == old(vendorCost)
        && sale == old(sale) && purchase == old(purchase)
        && promptTokens == old(promptTokens) && cachedTokens == old(cachedTokens)
        && completionTokens == old(completionTokens)
      ensures usage.Some? ==>
        var u := usage.value;
        && noUsage == old(noUsage) && sale == saleNow && purchase == purchaseNow
        && cost == FairCost(u.promptTokens, u.CachedTokens(), u.completionTokens, saleNow.input, saleNow.cacheHit,
              saleNow.output)
        && vendorCost == FairCost(u.promptTokens, u.CachedTokens(), u.completionTokens, purchaseNow.input,
              purchaseNow.cacheHit, purchaseNow.output)
        && 0 <= cachedTokens <= promptTokens <= MAX_USAGE_TOKENS && 0 <= completionTokens <= MAX_USAGE_TOKENS
        && promptTokens == ClampTokens(u.promptTokens) && completionTokens == ClampTokens(u.completionTokens)
        && cachedTokens == BilledHits(u.promptTokens, u.CachedTokens())
    {
      hide FairCost, CalcCostCached;
      if usage.None? {
        noUsage := 1;
        return;
      }
      var u := usage.value;
      promptTokens := ClampTokens(u.promptTokens);
      completionTokens := ClampTokens(u.completionTokens);
      cachedTokens := ClampTokens(u.CachedTokens());
      if cachedTokens > promptTokens { cachedTokens := promptTokens; }
      sale, purchase := saleNow, purchaseNow;
      cost := CalcCostCached(promptTokens, cachedTokens, completionTokens, saleNow.input, saleNow.cacheHit,
          saleNow.output);
      vendorCost := CalcCostCached(promptTokens, cachedTokens, completionTokens, purchaseNow.input,
          purchaseNow.cacheHit, purchaseNow.output);
      ClampedBillSame(u.promptTokens, u.CachedTokens(), u.completionTokens, saleNow.input, saleNow.cacheHit,
          saleNow.output);
      ClampedBillSame(u.promptTokens, u.CachedTokens(), u.completionTokens, purchaseNow.input, purchaseNow.cacheHit,
          purchaseNow.output);
    }
  }
}
