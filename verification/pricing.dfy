/**
 The size-based price of the product page: the base price times the selected
 size's multiplier, passed through Math.round.
 */
module Pricing {
  import opened Rational

  /** One entry of the size catalog: the button label and its price multiplier. */
  datatype SizeVariant = SizeVariant(sizeLabel: string, multiplier: Rat)

  /** The size catalog is supplied by the caller; the page needs at least one entry. */
  type Catalog = c: seq<SizeVariant> | |c| > 0 witness [SizeVariant("", FromInt(1))]

  /** Multipliers never decrease along the catalog. */
  ghost predicate Ascending(catalog: Catalog) {
    forall i, j :: 0 <= i <= j < |catalog| ==> Le(catalog[i].multiplier, catalog[j].multiplier)
  }

  /** The displayed price for the selected size. */
  function CurrentPrice(basePrice: Rat, catalog: Catalog, selectedSize: nat): (r: int)
    requires selectedSize < |catalog|
    ensures RoundsTo(Mul(basePrice, catalog[selectedSize].multiplier), r)
  {
    Round(Mul(basePrice, catalog[selectedSize].multiplier))
  }

  /** With a non-negative base price, a larger multiplier never gives a smaller price. */
  lemma PriceMonotoneInMultiplier(basePrice: Rat, catalog: Catalog, i: nat, j: nat)
    requires basePrice.num >= 0
    requires i < |catalog| && j < |catalog|
    requires Le(catalog[i].multiplier, catalog[j].multiplier)
    ensures CurrentPrice(basePrice, catalog, i) <= CurrentPrice(basePrice, catalog, j)
  {
    MulMonotone(basePrice, catalog[i].multiplier, catalog[j].multiplier);
    RoundMonotone(Mul(basePrice, catalog[i].multiplier), Mul(basePrice, catalog[j].multiplier));
  }

  /** In an ascending catalog, a later size never costs less than an earlier one. */
  lemma AscendingCatalogPrices(basePrice: Rat, catalog: Catalog, i: nat, j: nat)
    requires basePrice.num >= 0
    requires Ascending(catalog)
    requires i <= j < |catalog|
    ensures CurrentPrice(basePrice, catalog, i) <= CurrentPrice(basePrice, catalog, j)
  {
    PriceMonotoneInMultiplier(basePrice, catalog, i, j);
  }

  /** When base price times multiplier is already a whole number, that number is the price. */
  lemma IntegralPriceUnrounded(basePrice: Rat, catalog: Catalog, selectedSize: nat, k: int)
    requires selectedSize < |catalog|
    requires IsInteger(Mul(basePrice, catalog[selectedSize].multiplier), k)
    ensures CurrentPrice(basePrice, catalog, selectedSize) == k
  {
    RoundExact(Mul(basePrice, catalog[selectedSize].multiplier), k);
  }

  /** A price exactly halfway between two whole units goes to the upper one, however the value is written. */
  lemma HalfPriceRoundsUp(basePrice: Rat, catalog: Catalog, selectedSize: nat, k: int)
    requires selectedSize < |catalog|
    requires var q := Mul(basePrice, catalog[selectedSize].multiplier);
             2 * q.num == (2 * k + 1) * q.den
    ensures CurrentPrice(basePrice, catalog, selectedSize) == k + 1
  {
    var q := Mul(basePrice, catalog[selectedSize].multiplier);
    assert (k + 1) * (2 * q.den) == 2 * q.num + q.den;
    RoundUnique(q, k + 1);
  }
}
