/**
 * The commission table of src/lib/types.ts: a fixed percentage per listing tier,
 * applied to the price to split the proceeds between the platform and the seller.
 * Rates are exact rationals here (the source multiplies IEEE doubles).
 */
module Commission {

  /** A listing's tier (`AnnouncementType`). */
  datatype AnnouncementType = Normal | Premium | New

  /**
   * The percentage shown for each tier in the `TIPOS_ANUNCIO` table
   * (field `comissao`).
   */
  function TierPercent(t: AnnouncementType): (pct: nat)
    ensures pct < 100
  {
    match t
    case Normal => 8
    case Premium => 15
    case New => 5
  }

  /** `COMMISSION_RATES[t]`: the platform's share of the price. */
  function Rate(t: AnnouncementType): (r: real)
    ensures 0.0 < r < 1.0
  {
    match t
    case Normal => 0.08
    case Premium => 0.15
    case New => 0.05
  }

  /** `calculateCommission(price, type)`. */
  function CalculateCommission(price: real, t: AnnouncementType): (c: real)
    ensures price == 0.0 ==> c == 0.0
    ensures price > 0.0 ==> 0.0 < c < price
  {
    CommissionBounds(price, t);
    price * Rate(t)
  }

  /** `calculateSellerAmount(price, type)`: what is left after the commission. */
  function CalculateSellerAmount(price: real, t: AnnouncementType): (s: real)
    ensures price >= 0.0 ==> 0.0 <= s <= price
  {
    price - CalculateCommission(price, t)
  }

  /** Each rate is the table percentage over one hundred. */
  lemma RateIsTierPercent(t: AnnouncementType)
    ensures Rate(t) == TierPercent(t) as real / 100.0
  {
  }

  /** The new tier pays the least and the premium tier the most. */
  lemma RateOrdering(t: AnnouncementType)
    ensures Rate(New) <= Rate(t) <= Rate(Premium)
    ensures Rate(New) < Rate(Normal) < Rate(Premium)
  {
  }

  /** For a non-negative price the commission lies between zero and the price. */
  lemma CommissionBounds(price: real, t: AnnouncementType)
    ensures price == 0.0 ==> price * Rate(t) == 0.0
    ensures price > 0.0 ==> 0.0 < price * Rate(t) < price
  {
  }

  /** The split is exact: commission plus seller amount is the price, for every tier. */
  lemma SplitIsExact(price: real, t: AnnouncementType)
    ensures CalculateCommission(price, t) + CalculateSellerAmount(price, t) == price
  {
  }

  /** A higher price never yields a lower commission. */
  lemma CommissionMonotone(p: real, q: real, t: AnnouncementType)
    requires p <= q
    ensures CalculateCommission(p, t) <= CalculateCommission(q, t)
  {
  }

  /**
   * For an integer price the commission is a whole number of hundredths,
   * namely price times the table percentage: no fraction of a cent is created.
   */
  lemma CommissionInCents(price: int, t: AnnouncementType)
    ensures CalculateCommission(price as real, t) * 100.0 == (price * TierPercent(t)) as real
  {
  }
}
