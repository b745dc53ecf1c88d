/** Which orders are refused before anything is added up, and at what price the others are made. */
module OrderRefusals {
  import opened Common
  import opened Text
  import opened OrderPricing
  import Inv = InventoryService
  import InventoryOutcomes

  /** The product is there to be had, for a price, in this currency. */
  predicate Sellable(catalog: map<string, Product>, sku: string, currency: string) {
    && sku in catalog && catalog[sku].active && catalog[sku].currency in {"", currency}
    && (catalog[sku].priceMinor > 0 || catalog[sku].priceAmount > 0)
  }

  /** Some line asks for this SKU. */
  ghost predicate IsAskedFor(items: seq<Line>, sku: string) {
    exists k :: 0 <= k < |items| && TrimSpace(items[k].sku) == sku
  }

  /** What a line asks for cannot be sold. */
  ghost predicate Lacks(items: seq<Line>, sku: string, catalog: map<string, Product>, currency: string) {
    !Sellable(catalog, sku, currency) && IsAskedFor(items, sku)
  }

  /** The price in minor units, if the product has one, or else the other amount. */
  lemma {:induction false} PriceIs(catalog: map<string, Product>, sku: string, currency: string)
    requires Sellable(catalog, sku, currency)
    ensures var p := catalog[sku];
            && PriceOf(catalog, sku) > 0 && PriceOf(catalog, sku) in {p.priceMinor, p.priceAmount}
            && (p.priceMinor > 0 ==> PriceOf(catalog, sku) == p.priceMinor)
  {
    var p := catalog[sku];
    assert UnitPrice(p) == if p.priceMinor > 0 then p.priceMinor else p.priceAmount;
  }

  /** An order is in the currency that is asked for, without the white space around it, or in US
      dollars if none is. */
  lemma {:induction false} CurrencyIs(asked: string, i: nat, j: nat)
    requires Framed(asked, i, j) && (i == j || Bare(asked[i..j]))
    ensures Currency(asked) == if i == j then "USD" else asked[i..j]
  {
    hide IsSpace, TrimSpace;
    TrimIs(asked);
    var k: nat, l: nat :| Framed(asked, k, l) && asked[k..l] == TrimSpace(asked);
    if i < j { OneFrame(asked, i, j, k, l); }
  }

  lemma ObjectionIff(catalog: map<string, Product>, sku: string, currency: string)
    ensures Objection(catalog, sku, currency).None? <==> Sellable(catalog, sku, currency)
  {
  }

  lemma AskedForOneMore(items: seq<Line>, sku: string)
    requires items != []
    ensures var n := |items| - 1;
            IsAskedFor(items, sku) <==> IsAskedFor(items[..n], sku) || TrimSpace(items[n].sku) == sku
  {
    hide TrimSpace;
    assert forall k :: 0 <= k < |items| - 1 ==> items[..|items| - 1][k] == items[k];
  }

  lemma {:induction false} KeysAre(items: seq<Line>, sku: string)
    ensures sku in Inv.Consolidated(items) <==> IsAskedFor(items, sku)
  {
    hide TrimSpace, Wrap64, Inv.Get;
    if items != [] {
      KeysAre(items[..|items| - 1], sku);
      AskedForOneMore(items, sku);
      hide IsAskedFor;
    }
  }

  /** The first SKU in the list with an objection. */
  lemma {:induction false} FirstObjectionIs(skus: seq<string>, catalog: map<string, Product>, currency: string)
    ensures FirstObjection(skus, catalog, currency).None?
       <==> forall k :: 0 <= k < |skus| ==> Objection(catalog, skus[k], currency).None?
    ensures forall k :: 0 <= k < |skus| && Objection(catalog, skus[k], currency).Some?
                        && (forall j :: 0 <= j < k ==> Objection(catalog, skus[j], currency).None?) ==>
              FirstObjection(skus, catalog, currency) == Objection(catalog, skus[k], currency)
  {
    hide Objection;
    if skus != [] {
      var n := |skus| - 1;
      FirstObjectionIs(skus[..n], catalog, currency);
      assert forall k :: 0 <= k < n ==> skus[..n][k] == skus[k];
    }
  }

  predicate Sound(items: seq<Line>) {
    1 <= |items| <= 100 && forall k :: 0 <= k < |items| ==> InventoryOutcomes.Sound(items[k])
  }

  lemma SoundIff(items: seq<Line>)
    ensures Sound(items) <==> 1 <= |items| <= 100 && Inv.Fault(items).None?
  {
    InventoryOutcomes.FaultIsExact(items);
    hide InventoryOutcomes.Sound;
  }

  /** An order is let through exactly if it has from 1 to 100 lines, each asks for some of
      something, and all they ask for can be sold in the order's currency. */
  lemma {:induction false} LetThroughIff(items: seq<Line>, catalog: map<string, Product>, currency: string)
    ensures Refusal(items, catalog, currency).None?
       <==> Sound(items) && forall k :: 0 <= k < |items| ==> Sellable(catalog, TrimSpace(items[k].sku), currency)
  {
    SoundIff(items);
    hide Sound, Objection, Sellable, TrimSpace, Inv.Fault, Inv.Consolidated;
    var skus := Sorted(Inv.Consolidated(items).Keys);
    forall sku
      ensures sku in skus <==> IsAskedFor(items, sku)
      ensures Objection(catalog, sku, currency).None? <==> Sellable(catalog, sku, currency)
    {
      KeysAre(items, sku);
      ObjectionIff(catalog, sku, currency);
    }
    FirstObjectionIs(skus, catalog, currency);
    assert forall k :: 0 <= k < |items| ==> TrimSpace(items[k].sku) in skus;
    hide Sorted, FirstObjection;
  }

  /** If they cannot, the first such SKU in byte order decides the reply. */
  lemma {:induction false} RefusedFor(items: seq<Line>, catalog: map<string, Product>, currency: string, sku: string)
    requires Sound(items) && Lacks(items, sku, catalog, currency)
    requires forall other :: Lacks(items, other, catalog, currency) && other != sku ==> Less(sku, other)
    ensures Refusal(items, catalog, currency)
         == Some(if sku !in catalog then ProductNotFound
                 else if !catalog[sku].active then ProductUnavailable
                 else if catalog[sku].currency !in {"", currency} then CurrencyMismatch
                 else InvalidPrice)
  {
    SoundIff(items);
    hide *;
    var skus := Sorted(Inv.Consolidated(items).Keys);
    LackingIsAsked(items, sku, catalog, currency);
    KeysAre(items, sku);
    var k :| 0 <= k < |skus| && skus[k] == sku;
    forall j | 0 <= j < k ensures Objection(catalog, skus[j], currency).None? {
      KeysAre(items, skus[j]);
      EarlierSku(skus, j, k);
      NoneBefore(items, skus[j], sku, catalog, currency);
    }
    FirstObjectionIs(skus, catalog, currency);
    WhyLacking(catalog, sku, currency);
    RefusedByCatalog(items, catalog, currency);
  }

  lemma LackingIsAsked(items: seq<Line>, sku: string, catalog: map<string, Product>, currency: string)
    requires Lacks(items, sku, catalog, currency)
    ensures IsAskedFor(items, sku) && !Sellable(catalog, sku, currency)
  {
  }

  lemma EarlierSku(skus: seq<string>, j: nat, k: nat)
    requires Ascending(skus) && j < k < |skus|
    ensures skus[j] != skus[k] && !Less(skus[k], skus[j])
  {
    LessTotal(skus[j], skus[k]);
    hide Less;
  }

  lemma NoneBefore(items: seq<Line>, sku: string, first: string, catalog: map<string, Product>, currency: string)
    requires IsAskedFor(items, sku) && sku != first && !Less(first, sku)
    requires Lacks(items, sku, catalog, currency) ==> Less(first, sku)
    ensures Objection(catalog, sku, currency).None?
  {
    ObjectionIff(catalog, sku, currency);
    hide Objection, Sellable, Less, IsAskedFor;
  }

  lemma WhyLacking(catalog: map<string, Product>, sku: string, currency: string)
    requires !Sellable(catalog, sku, currency)
    ensures Objection(catalog, sku, currency)
         == Some(if sku !in catalog then ProductNotFound
                 else if !catalog[sku].active then ProductUnavailable
                 else if catalog[sku].currency !in {"", currency} then CurrencyMismatch
                 else InvalidPrice)
  {
  }

  lemma RefusedByCatalog(items: seq<Line>, catalog: map<string, Product>, currency: string)
    requires 1 <= |items| <= 100 && Inv.Fault(items).None?
    ensures Refusal(items, catalog, currency)
         == FirstObjection(Sorted(Inv.Consolidated(items).Keys), catalog, currency)
  {
    hide FirstObjection, Sorted, Inv.Consolidated, Inv.Fault;
  }
}
