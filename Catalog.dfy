/**
  The static product catalog of the test data module and the id arrays derived
  from it.

  `baseTestProductData.products` is an object literal keyed by each product's
  base id; every entry stores its add and remove button ids as a prefix
  constant followed by the base id. `Object.values(products)` lists the entries
  in literal order (none of the keys is an array index), and the base, add and
  remove id arrays are three projections of that list.
 */
module ProductCatalog {
  import opened ProductButtonId

  /** One entry of `products`; the price is not part of this model. */
  datatype Product = Product(title: string, baseCssId: string, addBtnId: string, removeBtnId: string)

  /** A property of the object literal: its key and its value. */
  type Entry = (string, Product)

  /** The stand-alone list of button id bases. */
  const ButtonIdBases: seq<string> := [
    "sauce-labs-backpack",
    "sauce-labs-bike-light",
    "sauce-labs-bolt-t-shirt",
    "sauce-labs-fleece-jacket",
    "sauce-labs-onesie",
    "test.allthethings()-t-shirt-(red)"
  ]

  const SauceLabsOnesieBaseCssId: string := "sauce-labs-onesie"
  const SauceLabsBackpackBaseCssId: string := "sauce-labs-backpack"
  const SauceLabsBikeLightBaseCssId: string := "sauce-labs-bike-light"
  const SauceLabsBoltTShirtBaseCssId: string := "sauce-labs-bolt-t-shirt"
  const SauceLabsFleeceJacketBaseCssId: string := "sauce-labs-fleece-jacket"
  const TestAllTheThingsTShirtRed: string := "test.allthethings()-t-shirt-(red)"

  /** An entry written the way the literal writes each one: `[base]: {title, baseCssId, addBtnId, removeBtnId}`. */
  function CatalogEntry(title: string, base: string): Entry {
    (base, Product(title, base, AddToCartPrefix + base, RemoveFromCartPrefix + base))
  }

  /** `baseTestProductData.products`, property by property in literal order. */
  const ProductEntries: seq<Entry> := [
    CatalogEntry("Sauce Labs Backpack", SauceLabsBackpackBaseCssId),
    CatalogEntry("Sauce Labs Bike Light", SauceLabsBikeLightBaseCssId),
    CatalogEntry("Sauce Bolt T-Shirt", SauceLabsBoltTShirtBaseCssId),
    CatalogEntry("Sauce Labs Fleece Jacket", SauceLabsFleeceJacketBaseCssId),
    CatalogEntry("Sauce Labs Onesie", SauceLabsOnesieBaseCssId),
    CatalogEntry("Test.allTheThings() T-Shirt (Red)", TestAllTheThingsTShirtRed)
  ]

  /**
    The object an object literal builds: properties are assigned in order, so a
    later property with the same key overwrites an earlier one.
   */
  function ObjectOf(entries: seq<Entry>): (obj: map<string, Product>)
    ensures obj.Keys == set i | 0 <= i < |entries| :: entries[i].0
  {
    if entries == [] then map[]
    else
      var init := entries[..|entries| - 1];
      var last := entries[|entries| - 1];
      assert forall i :: 0 <= i < |init| ==> init[i] == entries[i];
      ObjectOf(init)[last.0 := last.1]
  }

  /** `Object.values` of the literal: the values in property order (keys are distinct and not array indices). */
  function Values(entries: seq<Entry>): (vs: seq<Product>) {
    seq(|entries|, i requires 0 <= i < |entries| => entries[i].1)
  }

  /** `.map(({baseCssId}) => baseCssId)` */
  function BaseIds(ps: seq<Product>): seq<string> {
    seq(|ps|, i requires 0 <= i < |ps| => ps[i].baseCssId)
  }

  /** `.map(({addBtnId}) => addBtnId)` */
  function AddIds(ps: seq<Product>): seq<string> {
    seq(|ps|, i requires 0 <= i < |ps| => ps[i].addBtnId)
  }

  /** `.map(({removeBtnId}) => removeBtnId)` */
  function RemoveIds(ps: seq<Product>): seq<string> {
    seq(|ps|, i requires 0 <= i < |ps| => ps[i].removeBtnId)
  }

  /** `baseTestProductData.products` as the object it evaluates to. */
  function Products(): map<string, Product> { ObjectOf(ProductEntries) }
  /** `testProductData.productArray` */
  function ProductArray(): seq<Product> { Values(ProductEntries) }
  /** `testProductData.baseIdArray` */
  function BaseIdArray(): seq<string> { BaseIds(Values(ProductEntries)) }
  /** `testProductData.addIdArray` */
  function AddIdArray(): seq<string> { AddIds(Values(ProductEntries)) }
  /** `testProductData.removeIdArray` */
  function RemoveIdArray(): seq<string> { RemoveIds(Values(ProductEntries)) }

  /** A product record whose button ids are derived from its base id, and a base id the parser accepts. */
  predicate WellFormedProduct(p: Product) {
    && p.addBtnId == AddToCartPrefix + p.baseCssId
    && p.removeBtnId == RemoveFromCartPrefix + p.baseCssId
    && |p.baseCssId| > 0 && NoWhitespace(p.baseCssId)
  }

  /**
    The catalog's invariant: every entry is stored under its own base id, keys
    are distinct, and every record is well formed.
   */
  predicate WellFormedCatalog(entries: seq<Entry>) {
    && (forall i :: 0 <= i < |entries| ==> entries[i].0 == entries[i].1.baseCssId)
    && (forall i :: 0 <= i < |entries| ==> WellFormedProduct(entries[i].1))
    && (forall i, j :: 0 <= i < j < |entries| ==> entries[i].0 != entries[j].0)
  }

  /** The hand-written table keeps the catalog's invariant. */
  lemma ProductEntriesWellFormed()
    ensures WellFormedCatalog(ProductEntries)
  {
    forall k | 0 <= k < |ProductEntries| ensures WellFormedProduct(ProductEntries[k].1) {
      assert ProductEntries[k].1.baseCssId == ButtonIdBases[k];
      if k < 3 { LeadingBaseIdsAccepted(k); } else { TrailingBaseIdsAccepted(k); }
    }
    // the six base ids have six different lengths
    assert |ProductEntries[0].0| == 19 && |ProductEntries[1].0| == 21 && |ProductEntries[2].0| == 23;
    assert |ProductEntries[3].0| == 24 && |ProductEntries[4].0| == 17 && |ProductEntries[5].0| == 33;
  }

  /** The first three base ids are non-empty runs of `\S`. */
  lemma LeadingBaseIdsAccepted(k: nat)
    requires k < 3
    ensures |ButtonIdBases[k]| > 0 && NoWhitespace(ButtonIdBases[k])
  {
  }

  /** The last three base ids are non-empty runs of `\S`. */
  lemma TrailingBaseIdsAccepted(k: nat)
    requires 3 <= k < 6
    ensures |ButtonIdBases[k]| > 0 && NoWhitespace(ButtonIdBases[k])
  {
  }

  /** An id can only start with `add-to-cart-` if its first character is `a`, and with `remove-` if it is `r`. */
  lemma FirstCharRulesOutPrefix(s: string)
    ensures |s| > 0 && s[0] != 'a' ==> !StartsWith(s, AddToCartPrefix)
    ensures |s| > 0 && s[0] != 'r' ==> !StartsWith(s, RemoveFromCartPrefix)
  {
  }

  /**
    No catalog base id itself starts with a button prefix, so an add id never
    also reads as a remove id for another base (and the other way round).
   */
  lemma BaseIdsAvoidPrefixes()
    ensures forall k :: 0 <= k < |ProductEntries| ==>
      !StartsWith(ProductEntries[k].0, AddToCartPrefix) && !StartsWith(ProductEntries[k].0, RemoveFromCartPrefix)
  {
    forall k | 0 <= k < |ProductEntries|
      ensures !StartsWith(ProductEntries[k].0, AddToCartPrefix) && !StartsWith(ProductEntries[k].0, RemoveFromCartPrefix)
    {
      var b := ProductEntries[k].0;
      assert b[0] == 's' || b[0] == 't';
      FirstCharRulesOutPrefix(b);
    }
  }

  /** The base id array lists exactly the stand-alone button id bases, in the same order. */
  lemma BaseIdArrayIsButtonIdBases()
    ensures BaseIdArray() == ButtonIdBases
  {
  }

  /** In a catalog keeping the invariant, looking up an entry's key yields that entry's product. */
  lemma {:induction false} ObjectLookup(entries: seq<Entry>, i: nat)
    requires WellFormedCatalog(entries)
    requires i < |entries|
    ensures entries[i].0 in ObjectOf(entries)
    ensures ObjectOf(entries)[entries[i].0] == entries[i].1
    ensures ObjectOf(entries)[entries[i].0].baseCssId == entries[i].0
  {
    var init := entries[..|entries| - 1];
    if i < |entries| - 1 {
      assert forall k :: 0 <= k < |init| ==> init[k] == entries[k];
      ObjectLookup(init, i);
    }
  }

  /**
    Every property of the built object is stored under its own base id, and the
    object's keys are exactly the entries of the base id array.
   */
  lemma ObjectKeyedByBaseId(entries: seq<Entry>)
    requires WellFormedCatalog(entries)
    ensures forall key :: key in ObjectOf(entries) <==> key in BaseIds(Values(entries))
    ensures forall key :: key in ObjectOf(entries) ==> ObjectOf(entries)[key].baseCssId == key
  {
    ProjectionsAligned(entries);
    forall key | key in BaseIds(Values(entries)) ensures key in ObjectOf(entries) {
      var i :| 0 <= i < |entries| && BaseIds(Values(entries))[i] == key;
      ObjectLookup(entries, i);
    }
    forall key | key in ObjectOf(entries)
      ensures key in BaseIds(Values(entries)) && ObjectOf(entries)[key].baseCssId == key
    {
      var i :| 0 <= i < |entries| && entries[i].0 == key;
      ObjectLookup(entries, i);
      assert BaseIds(Values(entries))[i] == key;
    }
  }

  /** The three id arrays have one position per product and position `k` of each derives from the same base id. */
  lemma ProjectionsAligned(entries: seq<Entry>)
    requires WellFormedCatalog(entries)
    ensures |BaseIds(Values(entries))| == |AddIds(Values(entries))| == |RemoveIds(Values(entries))| == |entries|
    ensures forall k :: 0 <= k < |entries| ==>
      && BaseIds(Values(entries))[k] == entries[k].0
      && AddIds(Values(entries))[k] == AddToCartPrefix + BaseIds(Values(entries))[k]
      && RemoveIds(Values(entries))[k] == RemoveFromCartPrefix + BaseIds(Values(entries))[k]
  {
  }

  /**
    Round trip: parsing the add id at position `k` yields an add button for the
    base id at position `k`, and parsing the remove id yields a remove button.
   */
  lemma RoundTrip(entries: seq<Entry>, k: nat)
    requires WellFormedCatalog(entries)
    requires k < |entries|
    ensures ParseProductBtnId(AddIds(Values(entries))[k])
         == Parsed(ButtonProps(true, false, AddIds(Values(entries))[k], BaseIds(Values(entries))[k]))
    ensures ParseProductBtnId(RemoveIds(Values(entries))[k])
         == Parsed(ButtonProps(false, true, RemoveIds(Values(entries))[k], BaseIds(Values(entries))[k]))
  {
    ProjectionsAligned(entries);
    ParseAddToCartId(entries[k].0);
    ParseRemoveId(entries[k].0);
  }

  /**
    No two catalog buttons share an id: add ids are pairwise distinct, remove
    ids are pairwise distinct, and no add id is a remove id.
   */
  lemma ButtonIdsDistinct(entries: seq<Entry>, j: nat, k: nat)
    requires WellFormedCatalog(entries)
    requires j < |entries| && k < |entries|
    ensures j != k ==> AddIds(Values(entries))[j] != AddIds(Values(entries))[k]
    ensures j != k ==> RemoveIds(Values(entries))[j] != RemoveIds(Values(entries))[k]
    ensures AddIds(Values(entries))[j] != RemoveIds(Values(entries))[k]
  {
    RoundTrip(entries, j);
    RoundTrip(entries, k);
    ProjectionsAligned(entries);
    if j < k {
      assert entries[j].0 != entries[k].0;
    } else if k < j {
      assert entries[k].0 != entries[j].0;
    }
  }

  /** Every id of `addIdArray` and `removeIdArray` of the real table parses back to its product. */
  lemma TestProductDataRoundTrip(k: nat)
    requires k < |ProductArray()|
    ensures ParseProductBtnId(AddIdArray()[k]) == Parsed(ButtonProps(true, false, AddIdArray()[k], BaseIdArray()[k]))
    ensures ParseProductBtnId(RemoveIdArray()[k]) == Parsed(ButtonProps(false, true, RemoveIdArray()[k], BaseIdArray()[k]))
    ensures ProductArray()[k].baseCssId == BaseIdArray()[k]
  {
    ProductEntriesWellFormed();
    RoundTrip(ProductEntries, k);
  }

  /**
    `testProductData` as exported: the four arrays have one position per
    product, and the products object is keyed by the base ids and by nothing else.
   */
  lemma TestProductDataAligned()
    ensures |ProductArray()| == |BaseIdArray()| == |AddIdArray()| == |RemoveIdArray()| == 6
    ensures forall key :: key in Products() <==> key in BaseIdArray()
    ensures forall k :: 0 <= k < 6 ==> BaseIdArray()[k] in Products() && Products()[BaseIdArray()[k]] == ProductArray()[k]
  {
    ProductEntriesWellFormed();
    ObjectKeyedByBaseId(ProductEntries);
    forall k | 0 <= k < 6 ensures BaseIdArray()[k] in Products() && Products()[BaseIdArray()[k]] == ProductArray()[k] {
      ObjectLookup(ProductEntries, k);
    }
  }
}
