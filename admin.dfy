/** The administrator's dashboard: its data system over the shared
    collections, the three in-place updates (approving a company,
    approving a product, setting a product's discount), the pending and
    approved views, the report totals, and the range guard the discount
    form applies before updating. */
module AdminDashboard {
  import opened Common
  import opened Seqs
  import opened Text
  import opened Records
  import opened Storage

  // ------------------------------------------------------------ Lookups

  /** Some company carries `id`. */
  function HasCompany(cs: seq<Company>, id: string): (b: bool)
    ensures b <==> exists c :: c in cs && c.id == id
  {
    Any(cs, (c: Company) => c.id == id)
  }

  /** Some product carries `id`. */
  function HasProduct(ps: seq<Product>, id: string): (b: bool)
    ensures b <==> exists p :: p in ps && p.id == id
  {
    Any(ps, (p: Product) => p.id == id)
  }

  /** `i` is the position of the company `find` returns for `id`. */
  predicate FirstCompany(cs: seq<Company>, id: string, i: int)
  {
    0 <= i < |cs| && cs[i].id == id && forall j :: 0 <= j < i ==> cs[j].id != id
  }

  /** `i` is the position of the product `find` returns for `id`. */
  predicate FirstProduct(ps: seq<Product>, id: string, i: int)
  {
    0 <= i < |ps| && ps[i].id == id && forall j :: 0 <= j < i ==> ps[j].id != id
  }

  // ----------------------------------------------- The in-place updates

  /** The companies after `approveCompany(id)`: the first company with
      that id is approved, with every other field kept, and every other
      company is untouched; with no such company nothing changes. */
  function ApproveCompanyIn(cs: seq<Company>, id: string): (r: seq<Company>)
    ensures |r| == |cs|
    ensures forall i :: FirstCompany(cs, id, i) ==> r == cs[i := cs[i].(approved := true)]
    ensures !HasCompany(cs, id) ==> r == cs
  {
    UpdateFirst(cs, (c: Company) => c.id == id, (c: Company) => c.(approved := true))
  }

  /** The products after `approveProduct(id)`, in the same way. */
  function ApproveProductIn(ps: seq<Product>, id: string): (r: seq<Product>)
    ensures |r| == |ps|
    ensures forall i :: FirstProduct(ps, id, i) ==> r == ps[i := ps[i].(approved := true)]
    ensures !HasProduct(ps, id) ==> r == ps
  {
    UpdateFirst(ps, (p: Product) => p.id == id, (p: Product) => p.(approved := true))
  }

  /** The products after `updateProductDiscount(id, discount)`: any
      discount is written, the range being checked only by the form. */
  function SetDiscountIn(ps: seq<Product>, id: string, discount: int): (r: seq<Product>)
    ensures |r| == |ps|
    ensures forall i :: FirstProduct(ps, id, i) ==> r == ps[i := ps[i].(discount := discount)]
    ensures !HasProduct(ps, id) ==> r == ps
  {
    UpdateFirst(ps, (p: Product) => p.id == id, (p: Product) => p.(discount := discount))
  }

  /** Approving a company twice is approving it once. */
  lemma ApproveCompanyIdempotent(cs: seq<Company>, id: string)
    ensures ApproveCompanyIn(ApproveCompanyIn(cs, id), id) == ApproveCompanyIn(cs, id)
  {
    UpdateFirstIdempotent(cs, (c: Company) => c.id == id, (c: Company) => c.(approved := true));
  }

  /** Approving a product twice is approving it once. */
  lemma ApproveProductIdempotent(ps: seq<Product>, id: string)
    ensures ApproveProductIn(ApproveProductIn(ps, id), id) == ApproveProductIn(ps, id)
  {
    UpdateFirstIdempotent(ps, (p: Product) => p.id == id, (p: Product) => p.(approved := true));
  }

  /** Of two discounts set in a row on one product, the second stays. */
  lemma SetDiscountLastWins(ps: seq<Product>, id: string, a: int, b: int)
    ensures SetDiscountIn(SetDiscountIn(ps, id, a), id, b) == SetDiscountIn(ps, id, b)
  {
    match FindIndex(ps, (p: Product) => p.id == id)
    case None =>
    case Some(i) =>
      assert FirstProduct(ps, id, i);
      var q := SetDiscountIn(ps, id, a);
      assert FirstProduct(q, id, i);
      assert q[i := q[i].(discount := b)] == ps[i := ps[i].(discount := b)];
  }

  // -------------------------------------------------------------- Views

  /** The pending and approved companies split the collection: no company
      is in both, together they are all of it, and each keeps its order. */
  lemma CompaniesPartition(cs: seq<Company>)
    ensures forall c :: c in PendingCompanies(cs) ==> c !in ApprovedCompanies(cs)
    ensures |PendingCompanies(cs)| + |ApprovedCompanies(cs)| == |cs|
    ensures multiset(PendingCompanies(cs)) + multiset(ApprovedCompanies(cs)) == multiset(cs)
    ensures IsSubsequence(PendingCompanies(cs), cs) && IsSubsequence(ApprovedCompanies(cs), cs)
  {
    FilterPartition(cs, (c: Company) => !c.approved, (c: Company) => c.approved);
    FilterIsSubsequence(cs, (c: Company) => !c.approved);
    FilterIsSubsequence(cs, (c: Company) => c.approved);
  }

  /** The pending and approved products split the collection likewise. */
  lemma ProductsPartition(ps: seq<Product>)
    ensures forall p :: p in PendingProducts(ps) ==> p !in ApprovedProducts(ps)
    ensures |PendingProducts(ps)| + |ApprovedProducts(ps)| == |ps|
    ensures multiset(PendingProducts(ps)) + multiset(ApprovedProducts(ps)) == multiset(ps)
    ensures IsSubsequence(PendingProducts(ps), ps) && IsSubsequence(ApprovedProducts(ps), ps)
  {
    FilterPartition(ps, (p: Product) => !p.approved, (p: Product) => p.approved);
    FilterIsSubsequence(ps, (p: Product) => !p.approved);
    FilterIsSubsequence(ps, (p: Product) => p.approved);
  }

  /** After a successful approval the company is listed among the approved. */
  lemma ApprovedCompanyIsListed(cs: seq<Company>, id: string)
    requires HasCompany(cs, id)
    ensures exists c :: c in ApprovedCompanies(ApproveCompanyIn(cs, id)) && c.id == id
  {
    var k := FindIndex(cs, (c: Company) => c.id == id);
    var i := k.value;
    assert FirstCompany(cs, id, i);
    var r := ApproveCompanyIn(cs, id);
    assert r[i] in r && r[i].approved;
  }

  /** After a successful approval the product is listed among the approved. */
  lemma ApprovedProductIsListed(ps: seq<Product>, id: string)
    requires HasProduct(ps, id)
    ensures exists p :: p in ApprovedProducts(ApproveProductIn(ps, id)) && p.id == id
  {
    var k := FindIndex(ps, (p: Product) => p.id == id);
    var i := k.value;
    assert FirstProduct(ps, id, i);
    var r := ApproveProductIn(ps, id);
    assert r[i] in r && r[i].approved;
  }

  // -------------------------------------------------------------- Stats

  datatype Stats = Stats(totalCompanies: nat, totalProducts: nat, totalVolume: real)

  /** `getStats`: every company and every product, approved or not, and
      the sum of the final prices of every transaction. */
  function GetStats(cs: seq<Company>, ps: seq<Product>, ts: seq<Transaction>): (s: Stats)
    ensures s.totalCompanies == |cs| && s.totalProducts == |ps| && s.totalVolume == TotalFinalPrice(ts)
    ensures s.totalCompanies == |PendingCompanies(cs)| + |ApprovedCompanies(cs)|
    ensures s.totalProducts == |PendingProducts(ps)| + |ApprovedProducts(ps)|
    ensures ts == [] ==> s.totalVolume == 0.0
    ensures (forall i :: 0 <= i < |ts| ==> Amount(ts[i].finalPrice) >= 0.0) ==> s.totalVolume >= 0.0
  {
    CompaniesPartition(cs);
    ProductsPartition(ps);
    if forall i :: 0 <= i < |ts| ==> Amount(ts[i].finalPrice) >= 0.0 then
      TotalFinalPriceNonNegative(ts);
      Stats(|cs|, |ps|, TotalFinalPrice(ts))
    else
      Stats(|cs|, |ps|, TotalFinalPrice(ts))
  }

  // ------------------------------------------------------ Discount form

  /** `parseInt(input) || 0`: a field that does not start with a number
      (NaN) counts as 0. */
  function DiscountInput(input: string): int
  {
    ParseInt(input).GetOr(0)
  }

  /** The range guard of `applyDiscount`: the discount to write, or `None`
      when it lies outside 0..50 and the update must not be made. */
  function DiscountGuard(input: string): (r: Option<int>)
    ensures r.Some? ==> 0 <= r.value <= 50 && r.value == DiscountInput(input)
    ensures r.None? ==> DiscountInput(input) < 0 || DiscountInput(input) > 50
  {
    var d := DiscountInput(input);
    if d < 0 || d > 50 then None else Some(d)
  }

  /** An empty or non-numeric field applies no discount. */
  lemma DiscountGuardNotANumber()
    ensures DiscountGuard("") == Some(0)
    ensures DiscountGuard("x") == Some(0)
  {
  }

  lemma DiscountGuardInRange()
    ensures DiscountGuard("25") == Some(25)
  {
    ParseIntDigits("25");
    assert DecimalValue("25") == 25 by {
      assert "25"[..1] == "2";
    }
  }

  lemma DiscountGuardTooHigh()
    ensures DiscountGuard("60") == None
  {
    ParseIntDigits("60");
    assert DecimalValue("60") == 60 by {
      assert "60"[..1] == "6";
    }
  }

  lemma DiscountGuardNegative()
    ensures DiscountGuard("-5") == None
  {
    ParseIntNegative("-5");
    assert "-5"[1..] == "5";
  }

  // ---------------------------------------------------------- The system

  /** The outcome `applyDiscount` reports. */
  datatype DiscountOutcome = OutOfRange | Applied | NotFound

  class AdminSystem {
    const storage: LocalStorage
    var companies: seq<Company>
    var products: seq<Product>
    var transactions: seq<Transaction>
    var users: seq<User>

    /** `loadData`: each absent key is an empty collection. */
    constructor(storage: LocalStorage)
      ensures this.storage == storage
      ensures companies == storage.store.companies.GetOr([])
      ensures products == storage.store.products.GetOr([])
      ensures transactions == storage.store.transactions.GetOr([])
      ensures users == storage.store.users.GetOr([])
    {
      this.storage := storage;
      companies := storage.store.companies.GetOr([]);
      products := storage.store.products.GetOr([]);
      transactions := storage.store.transactions.GetOr([]);
      users := storage.store.users.GetOr([]);
    }

    /** `saveData`: the users are not written back. */
    method SaveData()
      modifies storage
      ensures storage.store == old(storage.store).(companies := Some(companies),
        products := Some(products), transactions := Some(transactions))
    {
      storage.store := storage.store.(companies := Some(companies),
        products := Some(products), transactions := Some(transactions));
    }

    /** `approveCompany`: reports whether a company has the id; only then
        is it approved and the data saved. */
    method ApproveCompany(id: string) returns (ok: bool)
      modifies this, storage
      ensures ok == HasCompany(old(companies), id)
      ensures companies == ApproveCompanyIn(old(companies), id)
      ensures products == old(products) && transactions == old(transactions) && users == old(users)
      ensures ok ==> storage.store == old(storage.store).(companies := Some(companies),
        products := Some(products), transactions := Some(transactions))
      ensures !ok ==> storage.store == old(storage.store)
    {
      var k := FindIndex(companies, (c: Company) => c.id == id);
      if k.Some? {
        var i := k.value;
        assert FirstCompany(companies, id, i);
        companies := companies[i := companies[i].(approved := true)];
        SaveData();
        ok := true;
      } else {
        ok := false;
      }
    }

    /** `approveProduct`, over the products. */
    method ApproveProduct(id: string) returns (ok: bool)
      modifies this, storage
      ensures ok == HasProduct(old(products), id)
      ensures products == ApproveProductIn(old(products), id)
      ensures companies == old(companies) && transactions == old(transactions) && users == old(users)
      ensures ok ==> storage.store == old(storage.store).(companies := Some(companies),
        products := Some(products), transactions := Some(transactions))
      ensures !ok ==> storage.store == old(storage.store)
    {
      var k := FindIndex(products, (p: Product) => p.id == id);
      if k.Some? {
        var i := k.value;
        assert FirstProduct(products, id, i);
        products := products[i := products[i].(approved := true)];
        SaveData();
        ok := true;
      } else {
        ok := false;
      }
    }

    /** `updateProductDiscount`: writes whatever discount it is given. */
    method UpdateProductDiscount(id: string, discount: int) returns (ok: bool)
      modifies this, storage
      ensures ok == HasProduct(old(products), id)
      ensures products == SetDiscountIn(old(products), id, discount)
      ensures companies == old(companies) && transactions == old(transactions) && users == old(users)
      ensures ok ==> storage.store == old(storage.store).(companies := Some(companies),
        products := Some(products), transactions := Some(transactions))
      ensures !ok ==> storage.store == old(storage.store)
    {
      var k := FindIndex(products, (p: Product) => p.id == id);
      if k.Some? {
        var i := k.value;
        assert FirstProduct(products, id, i);
        products := products[i := products[i].(discount := discount)];
        SaveData();
        ok := true;
      } else {
        ok := false;
      }
    }
  }

  /** `applyDiscount(productId)` with the text typed in the product's
      field: out of range, nothing changes; otherwise the update is made. */
  method ApplyDiscount(sys: AdminSystem, productId: string, input: string) returns (r: DiscountOutcome)
    modifies sys, sys.storage
    ensures DiscountGuard(input).None? ==>
      && r == OutOfRange
      && sys.products == old(sys.products)
      && sys.storage.store == old(sys.storage.store)
    ensures DiscountGuard(input).Some? ==>
      && r == (if HasProduct(old(sys.products), productId) then Applied else NotFound)
      && sys.products == SetDiscountIn(old(sys.products), productId, DiscountGuard(input).value)
    ensures DiscountGuard(input).Some? ==>
      sys.storage.store == (if HasProduct(old(sys.products), productId)
        then old(sys.storage.store).(companies := Some(sys.companies), products := Some(sys.products),
          transactions := Some(sys.transactions))
        else old(sys.storage.store))
    ensures sys.companies == old(sys.companies) && sys.transactions == old(sys.transactions)
    ensures sys.users == old(sys.users)
  {
    var d := DiscountGuard(input);
    if d.None? {
      return OutOfRange;
    }
    var ok := sys.UpdateProductDiscount(productId, d.value);
    r := if ok then Applied else NotFound;
  }

  /** `checkAdminAuth`: the signed-in administrator, if any. */
  function CheckAdminAuth(storage: LocalStorage): (r: Option<Admin>)
    reads storage
    ensures r.Some? <==> storage.store.currentAdmin.Some?
  {
    storage.store.currentAdmin
  }

  /** `adminLogout`: forgets the signed-in administrator. */
  method AdminLogout(storage: LocalStorage)
    modifies storage
    ensures storage.store == old(storage.store).(currentAdmin := None)
    ensures CheckAdminAuth(storage).None?
  {
    storage.store := storage.store.(currentAdmin := None);
  }
}
