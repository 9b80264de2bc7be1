/** The product catalogue: the approved products narrowed by a search
    term, a category and a price band, the catalogue's totals, the
    product a company submits for approval, and the purchase record
    written when a product is bought. */
module Catalog {
  import opened Common
  import opened Seqs
  import opened Text
  import opened Numbers
  import opened Records
  import opened Storage

  /** `currentFilters`; an empty field is an inactive filter. */
  datatype Filters = Filters(search: string, category: string, priceRange: string)

  /** The filters the page starts with and `clearFilters` restores. */
  const NoFilters: Filters := Filters("", "", "")

  // ------------------------------------------------------------ Filters

  /** The lowercased `term` occurs in the name, the description or the
      tags (a product without tags cannot match through them). */
  predicate MatchesSearch(p: Product, term: string)
  {
    Contains(Lower(p.name), term) || Contains(Lower(p.description), term)
    || (p.tags != "" && Contains(Lower(p.tags), term))
  }

  /** `priceRange.split('-').map(Number)` destructured into `[min, max]`
      and the test on the price: with a `max` that is neither 0 nor NaN
      nor missing the band is `[min, max]`, otherwise only `min` bounds
      it; a NaN `min` fails every comparison. */
  predicate PriceInRange(price: real, range: string)
  {
    var parts := Split(range, '-');
    var min := ToNumber(parts[0]);
    var max := if |parts| > 1 then ToNumber(parts[1]) else None;
    if max.Some? && max.value != 0 then
      min.Some? && min.value as real <= price <= max.value as real
    else
      min.Some? && price >= min.value as real
  }

  predicate SearchOk(f: Filters, p: Product)
  {
    f.search == "" || MatchesSearch(p, Lower(f.search))
  }

  predicate CategoryOk(f: Filters, p: Product)
  {
    f.category == "" || p.category == f.category
  }

  predicate PriceOk(f: Filters, p: Product)
  {
    f.priceRange == "" || PriceInRange(p.price, f.priceRange)
  }

  /** A product is listed when it is approved and passes every active filter. */
  predicate Selected(f: Filters, p: Product)
  {
    p.approved && SearchOk(f, p) && CategoryOk(f, p) && PriceOk(f, p)
  }

  /** What `getFilteredProducts` lists: one conjunctive filter. */
  function FilteredProducts(ps: seq<Product>, f: Filters): seq<Product>
  {
    Filter(ps, (p: Product) => Selected(f, p))
  }

  /** Only approved products are listed, each from the catalogue, in the
      catalogue's order. */
  lemma FilteredAreApproved(ps: seq<Product>, f: Filters)
    ensures forall p :: p in FilteredProducts(ps, f) ==> p in ApprovedProducts(ps)
    ensures IsSubsequence(FilteredProducts(ps, f), ApprovedProducts(ps))
  {
    var rest := (p: Product) => SearchOk(f, p) && CategoryOk(f, p) && PriceOk(f, p);
    FilterFilter(ps, (p: Product) => p.approved, rest, (p: Product) => Selected(f, p));
    FilterIsSubsequence(ApprovedProducts(ps), rest);
  }

  /** With no active filter the listing is the approved products, in order. */
  lemma NoFiltersListsApproved(ps: seq<Product>)
    ensures FilteredProducts(ps, NoFilters) == ApprovedProducts(ps)
  {
    FilterCongruent(ps, (p: Product) => Selected(NoFilters, p), (p: Product) => p.approved);
  }

  /** Each listed product matches the search term, has the chosen category
      and lies in the chosen price band. */
  lemma FilteredMatch(ps: seq<Product>, f: Filters)
    ensures f.search != "" ==> forall p :: p in FilteredProducts(ps, f) ==> MatchesSearch(p, Lower(f.search))
    ensures f.category != "" ==> forall p :: p in FilteredProducts(ps, f) ==> p.category == f.category
    ensures f.priceRange != "" ==> forall p :: p in FilteredProducts(ps, f) ==> PriceInRange(p.price, f.priceRange)
  {
  }

  /** Filtering the listing again with the same filters changes nothing. */
  lemma FilteredIdempotent(ps: seq<Product>, f: Filters)
    ensures FilteredProducts(FilteredProducts(ps, f), f) == FilteredProducts(ps, f)
  {
    FilterIdempotent(ps, (p: Product) => Selected(f, p));
  }

  /** Two pieces without `-` joined by one split back into those pieces. */
  lemma SplitPair(a: string, b: string)
    requires '-' !in a && '-' !in b
    ensures Split(a + "-" + b, '-') == [a, b]
  {
    assert Join([a, b], '-') == a + "-" + b by {
      assert [a, b][1..] == [b];
    }
    SplitJoin([a, b], '-');
  }

  /** A decimal numeral holds no '-'. */
  lemma NoDashInDecimal(n: nat)
    ensures '-' !in DecimalString(n)
  {
    var s := DecimalString(n);
    forall i | 0 <= i < |s|
      ensures s[i] != '-'
    {
      assert IsDigit(s[i]);
    }
  }

  /** A band `lo-hi` with `hi` above 0 keeps exactly the prices from `lo`
      to `hi`, both included. */
  lemma PriceBand(price: real, lo: nat, hi: nat)
    requires hi > 0
    ensures PriceInRange(price, DecimalString(lo) + "-" + DecimalString(hi)) <==> lo as real <= price <= hi as real
  {
    var a := DecimalString(lo);
    var b := DecimalString(hi);
    NoDashInDecimal(lo);
    NoDashInDecimal(hi);
    SplitPair(a, b);
    ToNumberDecimal(lo);
    ToNumberDecimal(hi);
  }

  /** A band `lo-` has no upper bound: its empty `max` reads as 0. */
  lemma PriceFrom(price: real, lo: nat)
    ensures PriceInRange(price, DecimalString(lo) + "-") <==> price >= lo as real
  {
    var a := DecimalString(lo);
    assert Join([a, ""], '-') == a + "-" by {
      assert [a, ""][1..] == [""];
    }
    SplitJoin([a, ""], '-');
    ToNumberDecimal(lo);
  }

  /** A band whose `max` is 0 bounds the price from below only. */
  lemma PriceZeroMax(price: real, lo: nat)
    ensures PriceInRange(price, DecimalString(lo) + "-0") <==> price >= lo as real
  {
    var a := DecimalString(lo);
    assert DecimalString(0) == "0";
    assert Join([a, "0"], '-') == a + "-0" by {
      assert [a, "0"][1..] == ["0"];
    }
    SplitJoin([a, "0"], '-');
    ToNumberDecimal(lo);
    ToNumberDecimal(0);
  }

  // -------------------------------------------------------------- Stats

  datatype CatalogStats = CatalogStats(totalProducts: nat, totalCompanies: nat, avgDiscount: int)

  /** `getStats`: the approved products and companies, and the rounded
      mean discount of the approved products (0 when there are none). */
  function GetStats(ps: seq<Product>, cs: seq<Company>): (s: CatalogStats)
    ensures s.totalProducts == |ApprovedProducts(ps)| && s.totalCompanies == |ApprovedCompanies(cs)|
    ensures s.avgDiscount == RoundedMean(Map(ApprovedProducts(ps), (p: Product) => p.discount))
    ensures ApprovedProducts(ps) == [] ==> s.avgDiscount == 0
    ensures (forall p :: p in ps && p.approved ==> 0 <= p.discount <= 50) ==> 0 <= s.avgDiscount <= 50
  {
    var approved := ApprovedProducts(ps);
    var discounts := Map(approved, (p: Product) => p.discount);
    var s := CatalogStats(|approved|, |ApprovedCompanies(cs)|, RoundedMean(discounts));
    if approved != [] && forall i :: 0 <= i < |approved| ==> 0 <= approved[i].discount <= 50 then
      MeanWithinBounds(discounts, 0, 50);
      s
    else
      assert forall i :: 0 <= i < |approved| ==> approved[i] in approved;
      s
  }

  // ------------------------------------------------------------ Products

  /** What the add-product form supplies. */
  datatype ProductData = ProductData(name: string, category: string, price: real, description: string, tags: string)

  /** The product `addProduct` builds: owned by the signed-in company,
      awaiting approval, without discount. */
  function NewProduct(data: ProductData, companyId: string, now: nat): (p: Product)
    ensures p.companyId == companyId && !p.approved && p.discount == 0
    ensures p.name == data.name && p.category == data.category && p.price == data.price
    ensures p.description == data.description && p.tags == data.tags && p.createdAt == now
    ensures p.id == "prod" + DecimalString(now)
  {
    Product("prod" + DecimalString(now), companyId, data.name, data.category, data.price,
      data.description, data.tags, 0, false, now)
  }

  /** Products added at different moments get different ids. */
  lemma NewProductIdsDiffer(d1: ProductData, c1: string, t1: nat, d2: ProductData, c2: string, t2: nat)
    requires t1 != t2
    ensures NewProduct(d1, c1, t1).id != NewProduct(d2, c2, t2).id
  {
    var a, b := NewProduct(d1, c1, t1).id, NewProduct(d2, c2, t2).id;
    if a == b {
      assert a[4..] == DecimalString(t1) && b[4..] == DecimalString(t2);
      DecimalStringInjective(t1, t2);
    }
  }

  /** A product awaiting approval is not listed, so adding one leaves the
      listing and the totals as they were. */
  lemma AddingPendingKeepsCatalog(ps: seq<Product>, p: Product, cs: seq<Company>, f: Filters)
    requires !p.approved
    ensures FilteredProducts(ps + [p], f) == FilteredProducts(ps, f)
    ensures GetStats(ps + [p], cs) == GetStats(ps, cs)
  {
    FilterAppend(ps, [p], (q: Product) => Selected(f, q));
    assert Filter([p], (q: Product) => Selected(f, q)) == [];
    FilterAppend(ps, [p], (q: Product) => q.approved);
    assert Filter([p], (q: Product) => q.approved) == [];
    assert ApprovedProducts(ps + [p]) == ApprovedProducts(ps);
  }

  // ------------------------------------------------------------ Purchase

  /** A share `r` in 0..1 of a non-negative `x` lies between 0 and `x`. */
  lemma ShareBounds(x: real, r: real)
    requires x >= 0.0 && 0.0 <= r <= 1.0
    ensures 0.0 <= x * r <= x
  {
    assert x - x * r == x * (1.0 - r);
  }

  /** The transaction `buyProduct` records: a completed sale from the
      product's company to the buyer, with the price and the discount of
      the moment and the price after discount. */
  function Purchase(p: Product, buyerCompanyId: string, now: nat): (t: Transaction)
    ensures t.status == Completed && t.productId == p.id
    ensures t.buyerCompanyId == buyerCompanyId && t.sellerCompanyId == p.companyId
    ensures t.originalPrice == Some(p.price) && t.discount == Some(p.discount)
    ensures t.finalPrice.Some? && t.finalPrice.value + p.price * p.discount as real / 100.0 == p.price
    ensures 0 <= p.discount <= 100 && p.price >= 0.0 ==> 0.0 <= t.finalPrice.value <= p.price
  {
    var rate := p.discount as real / 100.0;
    var finalPrice := p.price * (1.0 - rate);
    assert finalPrice + p.price * rate == p.price;
    assert p.price * rate == p.price * p.discount as real / 100.0;
    if 0 <= p.discount <= 100 && p.price >= 0.0 then
      ShareBounds(p.price, 1.0 - rate);
      Transaction("trans" + DecimalString(now), p.id, buyerCompanyId, p.companyId,
        Some(p.price), Some(p.discount), Some(finalPrice), Completed, now)
    else
      Transaction("trans" + DecimalString(now), p.id, buyerCompanyId, p.companyId,
        Some(p.price), Some(p.discount), Some(finalPrice), Completed, now)
  }

  // ---------------------------------------------------------- The system

  class CatalogSystem {
    const storage: LocalStorage
    var companies: seq<Company>
    var products: seq<Product>
    var currentUser: Option<User>
    var currentFilters: Filters

    /** Loads the data and starts with no filter. */
    constructor(storage: LocalStorage)
      ensures this.storage == storage
      ensures companies == storage.store.companies.GetOr([])
      ensures products == storage.store.products.GetOr([])
      ensures currentUser == storage.store.currentUser
      ensures currentFilters == NoFilters
    {
      this.storage := storage;
      companies := storage.store.companies.GetOr([]);
      products := storage.store.products.GetOr([]);
      currentUser := storage.store.currentUser;
      currentFilters := NoFilters;
    }

    /** `loadData`, which the page repeats: the filters are kept. */
    method LoadData()
      modifies this
      ensures companies == storage.store.companies.GetOr([])
      ensures products == storage.store.products.GetOr([])
      ensures currentUser == storage.store.currentUser
      ensures currentFilters == old(currentFilters)
    {
      companies := storage.store.companies.GetOr([]);
      products := storage.store.products.GetOr([]);
      currentUser := storage.store.currentUser;
    }

    /** `addProduct`: with nobody signed in the lookup of the company
        fails and nothing is added (`None`). */
    method AddProduct(data: ProductData, now: nat) returns (r: Option<Product>)
      modifies this, storage
      ensures companies == old(companies) && currentUser == old(currentUser)
      ensures currentFilters == old(currentFilters)
      ensures currentUser.None? ==>
        && r.None?
        && products == old(products)
        && storage.store == old(storage.store)
      ensures currentUser.Some? ==>
        && r == Some(NewProduct(data, currentUser.value.companyId, now))
        && products == old(products) + [r.value]
        && storage.store == old(storage.store).(products := Some(products))
    {
      if currentUser.None? {
        return None;
      }
      var p := NewProduct(data, currentUser.value.companyId, now);
      products := products + [p];
      storage.store := storage.store.(products := Some(products));
      r := Some(p);
    }

    /** `getFilteredProducts`: the approved products, narrowed filter by
        filter. */
    method GetFilteredProducts() returns (filtered: seq<Product>)
      ensures filtered == FilteredProducts(products, currentFilters)
    {
      var f := currentFilters;
      filtered := ApprovedProducts(products);
      var searched := (p: Product) => p.approved && SearchOk(f, p);
      if f.search != "" {
        var term := Lower(f.search);
        FilterFilter(products, (p: Product) => p.approved, (p: Product) => MatchesSearch(p, term), searched);
        filtered := Filter(filtered, (p: Product) => MatchesSearch(p, term));
      } else {
        FilterCongruent(products, (p: Product) => p.approved, searched);
      }
      var categorized := (p: Product) => searched(p) && CategoryOk(f, p);
      if f.category != "" {
        FilterFilter(products, searched, (p: Product) => p.category == f.category, categorized);
        filtered := Filter(filtered, (p: Product) => p.category == f.category);
      } else {
        FilterCongruent(products, searched, categorized);
      }
      var priced := (p: Product) => Selected(f, p);
      if f.priceRange != "" {
        FilterFilter(products, categorized, (p: Product) => PriceInRange(p.price, f.priceRange), priced);
        filtered := Filter(filtered, (p: Product) => PriceInRange(p.price, f.priceRange));
      } else {
        FilterCongruent(products, categorized, priced);
      }
    }

    /** `searchProducts`: sets the search term. */
    method SearchProducts(term: string)
      modifies this
      ensures currentFilters == old(currentFilters).(search := term)
      ensures companies == old(companies) && products == old(products) && currentUser == old(currentUser)
    {
      currentFilters := currentFilters.(search := term);
    }

    /** `filterProducts`: sets the category and the price band. */
    method FilterProducts(category: string, priceRange: string)
      modifies this
      ensures currentFilters == old(currentFilters).(category := category, priceRange := priceRange)
      ensures companies == old(companies) && products == old(products) && currentUser == old(currentUser)
    {
      currentFilters := currentFilters.(category := category, priceRange := priceRange);
    }

    /** `clearFilters`: afterwards the approved products are listed. */
    method ClearFilters()
      modifies this
      ensures currentFilters == NoFilters
      ensures FilteredProducts(products, currentFilters) == ApprovedProducts(products)
      ensures companies == old(companies) && products == old(products) && currentUser == old(currentUser)
    {
      currentFilters := NoFilters;
      NoFiltersListsApproved(products);
    }
  }

  /** `buyProduct` with the product shown in the details window, if any:
      the purchase is appended to the stored transactions, so their number
      and their total grow by one sale. With nobody signed in the lookup
      of the buyer fails and nothing is stored. */
  method BuyProduct(sys: CatalogSystem, selected: Option<Product>, now: nat) returns (t: Option<Transaction>)
    modifies sys.storage
    ensures selected.None? || sys.currentUser.None? ==>
      t.None? && sys.storage.store == old(sys.storage.store)
    ensures selected.Some? && sys.currentUser.Some? ==>
      var before := old(sys.storage.store.transactions).GetOr([]);
      && t == Some(Purchase(selected.value, sys.currentUser.value.companyId, now))
      && sys.storage.store == old(sys.storage.store).(transactions := Some(before + [t.value]))
      && TotalFinalPrice(before + [t.value]) == TotalFinalPrice(before) + t.value.finalPrice.value
  {
    if selected.None? || sys.currentUser.None? {
      return None;
    }
    var purchase := Purchase(selected.value, sys.currentUser.value.companyId, now);
    var before := sys.storage.store.transactions.GetOr([]);
    TotalFinalPriceAppend(before, purchase);
    sys.storage.store := sys.storage.store.(transactions := Some(before + [purchase]));
    t := Some(purchase);
  }
}
