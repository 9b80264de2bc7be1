/** The company dashboard: the marketplace totals, the most recent
    transactions (read after sorting the loaded list in place), the
    companies that sold most, and the session check and sign-out every
    company page shares. */
module Dashboard {
  import opened Common
  import opened Seqs
  import opened Records
  import opened Storage

  // -------------------------------------------------------------- Stats

  datatype DashboardStats = DashboardStats(
    totalCompanies: nat,
    totalProducts: nat,
    totalTransactions: nat,
    totalRevenue: real)

  /** The completed transactions. */
  function CompletedTransactions(ts: seq<Transaction>): seq<Transaction>
  {
    Filter(ts, (t: Transaction) => t.status == Completed)
  }

  /** `getStats`: approved companies and products, completed transactions
      and the revenue they bring. */
  function GetStats(cs: seq<Company>, ps: seq<Product>, ts: seq<Transaction>): (s: DashboardStats)
    ensures s.totalCompanies == |ApprovedCompanies(cs)| && s.totalProducts == |ApprovedProducts(ps)|
    ensures s.totalTransactions == |CompletedTransactions(ts)|
    ensures s.totalRevenue == TotalFinalPrice(CompletedTransactions(ts))
    ensures s.totalCompanies <= |cs| && s.totalProducts <= |ps| && s.totalTransactions <= |ts|
  {
    var done := CompletedTransactions(ts);
    DashboardStats(|ApprovedCompanies(cs)|, |ApprovedProducts(ps)|, |done|, TotalFinalPrice(done))
  }

  /** The revenue of the completed transactions and the amount of the
      others add up to the amount of them all. */
  lemma RevenueIsCompletedShare(cs: seq<Company>, ps: seq<Product>, ts: seq<Transaction>)
    ensures GetStats(cs, ps, ts).totalRevenue
      + TotalFinalPrice(Filter(ts, (t: Transaction) => t.status != Completed)) == TotalFinalPrice(ts)
  {
    SumFilterSplit(ts, (t: Transaction) => t.status == Completed, (t: Transaction) => t.status != Completed,
      (t: Transaction) => Amount(t.finalPrice));
  }

  /** A transaction that is not completed moves none of the totals. */
  lemma UncompletedChangesNothing(cs: seq<Company>, ps: seq<Product>, ts: seq<Transaction>, t: Transaction)
    requires t.status != Completed
    ensures GetStats(cs, ps, ts + [t]) == GetStats(cs, ps, ts)
  {
    FilterAppend(ts, [t], (t: Transaction) => t.status == Completed);
    assert Filter([t], (t: Transaction) => t.status == Completed) == [];
    assert CompletedTransactions(ts + [t]) == CompletedTransactions(ts);
  }

  /** A company awaiting approval is not counted. */
  lemma PendingCompanyNotCounted(cs: seq<Company>, ps: seq<Product>, ts: seq<Transaction>, c: Company)
    requires !c.approved
    ensures GetStats(cs + [c], ps, ts) == GetStats(cs, ps, ts)
  {
    FilterAppend(cs, [c], (c: Company) => c.approved);
    assert Filter([c], (c: Company) => c.approved) == [];
    assert ApprovedCompanies(cs + [c]) == ApprovedCompanies(cs);
  }

  /** A product awaiting approval is not counted. */
  lemma PendingProductNotCounted(cs: seq<Company>, ps: seq<Product>, ts: seq<Transaction>, p: Product)
    requires !p.approved
    ensures GetStats(cs, ps + [p], ts) == GetStats(cs, ps, ts)
  {
    FilterAppend(ps, [p], (p: Product) => p.approved);
    assert Filter([p], (p: Product) => p.approved) == [];
    assert ApprovedProducts(ps + [p]) == ApprovedProducts(ps);
  }

  // ---------------------------------------------------- Top companies

  /** `{...company, productsCount, transactionsCount}`. */
  datatype RankedCompany = RankedCompany(company: Company, productsCount: nat, transactionsCount: nat)

  /** The approved products the company offers. */
  function ProductsOf(ps: seq<Product>, id: string): seq<Product>
  {
    Filter(ps, (p: Product) => p.companyId == id && p.approved)
  }

  /** The transactions in which the company sold, whatever their status. */
  function SalesOf(ts: seq<Transaction>, id: string): seq<Transaction>
  {
    Filter(ts, (t: Transaction) => t.sellerCompanyId == id)
  }

  function Rank(ps: seq<Product>, ts: seq<Transaction>, c: Company): RankedCompany
  {
    RankedCompany(c, |ProductsOf(ps, c.id)|, |SalesOf(ts, c.id)|)
  }

  function Sales(r: RankedCompany): int { r.transactionsCount }

  /** The approved companies with their counts, before sorting. */
  function Ranked(cs: seq<Company>, ps: seq<Product>, ts: seq<Transaction>): seq<RankedCompany>
  {
    Map(ApprovedCompanies(cs), (c: Company) => Rank(ps, ts, c))
  }

  /** `getTopCompanies(limit)`. */
  function TopCompanies(cs: seq<Company>, ps: seq<Product>, ts: seq<Transaction>, limit: int): (r: seq<RankedCompany>)
    ensures limit >= 0 ==> |r| == Min(limit, |ApprovedCompanies(cs)|)
    ensures SortedDesc(r, Sales)
  {
    var sorted := SortDesc(Ranked(cs, ps, ts), Sales);
    var r := Slice(sorted, limit);
    SortedPrefix(sorted, Sales, |r|);
    r
  }

  /** Every company listed is an approved one, with the number of its
      approved products and the number of its sales. */
  lemma TopCompaniesCounts(cs: seq<Company>, ps: seq<Product>, ts: seq<Transaction>, limit: int, r: RankedCompany)
    requires r in TopCompanies(cs, ps, ts, limit)
    ensures r.company in cs && r.company.approved
    ensures r.productsCount == |ProductsOf(ps, r.company.id)|
    ensures r.transactionsCount == |SalesOf(ts, r.company.id)|
  {
    var ranked := Ranked(cs, ps, ts);
    var sorted := SortDesc(ranked, Sales);
    var top := TopCompanies(cs, ps, ts, limit);
    assert top == sorted[..|top|];
    var k :| 0 <= k < |top| && top[k] == r;
    assert r in sorted;
    assert r in multiset(ranked);
    var i :| 0 <= i < |ranked| && ranked[i] == r;
    assert ApprovedCompanies(cs)[i] in ApprovedCompanies(cs);
  }

  /** The listing is the top of the ranking: no approved company left out
      sold more than one listed. */
  lemma TopCompaniesAreTop(cs: seq<Company>, ps: seq<Product>, ts: seq<Transaction>, limit: int,
                           r: RankedCompany, c: Company)
    requires r in TopCompanies(cs, ps, ts, limit)
    requires c in cs && c.approved && Rank(ps, ts, c) !in TopCompanies(cs, ps, ts, limit)
    ensures Sales(Rank(ps, ts, c)) <= Sales(r)
  {
    var ranked := Ranked(cs, ps, ts);
    var sorted := SortDesc(ranked, Sales);
    var top := TopCompanies(cs, ps, ts, limit);
    var approved := ApprovedCompanies(cs);
    var k :| 0 <= k < |approved| && approved[k] == c;
    assert ranked[k] == Rank(ps, ts, c);
    assert Rank(ps, ts, c) in multiset(sorted);
    SortedPrefixDominates(sorted, Sales, |top|, r, Rank(ps, ts, c));
  }

  /** The listing takes each ranked company at most as often as it occurs
      in the ranking. */
  lemma TopCompaniesFromRanked(cs: seq<Company>, ps: seq<Product>, ts: seq<Transaction>, limit: int)
    ensures multiset(TopCompanies(cs, ps, ts, limit)) <= multiset(Ranked(cs, ps, ts))
  {
    var sorted := SortDesc(Ranked(cs, ps, ts), Sales);
    var top := TopCompanies(cs, ps, ts, limit);
    PrefixSubMultiset(sorted, |top|);
  }

  /** Companies with the same number of sales keep the order in which
      the approved companies are stored. */
  lemma TopCompaniesTiesKeepOrder(cs: seq<Company>, ps: seq<Product>, ts: seq<Transaction>, k: int)
    ensures var tie := (r: RankedCompany) => Sales(r) == k;
      Filter(SortDesc(Ranked(cs, ps, ts), Sales), tie) == Filter(Ranked(cs, ps, ts), tie)
  {
    SortStable(Ranked(cs, ps, ts), Sales, (r: RankedCompany) => Sales(r) == k, k);
  }

  /** One approved company with two approved products and three sales is
      listed alone, with those counts. */
  lemma TopCompaniesSingle(c: Company, p1: Product, p2: Product, t1: Transaction, t2: Transaction, t3: Transaction)
    requires c.approved && p1.approved && p2.approved
    requires p1.companyId == c.id && p2.companyId == c.id
    requires t1.sellerCompanyId == c.id && t2.sellerCompanyId == c.id && t3.sellerCompanyId == c.id
    ensures TopCompanies([c], [p1, p2], [t1, t2, t3], 5) == [RankedCompany(c, 2, 3)]
  {
    var ps := [p1, p2];
    var ts := [t1, t2, t3];
    assert ApprovedCompanies([c]) == [c];
    FilterKeepsAll(ps, (p: Product) => p.companyId == c.id && p.approved);
    FilterKeepsAll(ts, (t: Transaction) => t.sellerCompanyId == c.id);
    assert Ranked([c], ps, ts) == [RankedCompany(c, 2, 3)];
  }

  // ---------------------------------------------------------- The system

  /** `limit = 5` when the caller gives none. */
  const DefaultLimit: int := 5

  class DashboardSystem {
    const storage: LocalStorage
    var companies: seq<Company>
    var products: seq<Product>
    var transactions: seq<Transaction>
    var users: seq<User>

    /** `loadData`: each absent key is an empty collection. */
    constructor(storage: LocalStorage)
      ensures this.storage == storage
      ensures companies == storage.store.companies.GetOr([])
      ensures products == storage.store.products.GetOr([])
      ensures transactions == storage.store.transactions.GetOr([])
      ensures users == storage.store.users.GetOr([])
    {
      this.storage := storage;
      companies := storage.store.companies.GetOr([]);
      products := storage.store.products.GetOr([]);
      transactions := storage.store.transactions.GetOr([]);
      users := storage.store.users.GetOr([]);
    }

    /** `getRecentTransactions(limit)`: sorts the loaded transactions in
        place, newest first (ties in their previous order), and returns the
        first `limit` of them. Storage is not written. */
    method GetRecentTransactions(limit: Option<int>) returns (r: seq<Transaction>)
      modifies this
      ensures transactions == SortDesc(old(transactions), CreatedAt)
      ensures multiset(transactions) == multiset(old(transactions))
      ensures SortedDesc(transactions, CreatedAt)
      ensures |r| <= |transactions| && r == transactions[..|r|]
      ensures limit.GetOr(DefaultLimit) >= 0 ==> |r| == Min(limit.GetOr(DefaultLimit), |transactions|)
      ensures companies == old(companies) && products == old(products) && users == old(users)
    {
      transactions := SortDesc(transactions, CreatedAt);
      r := Slice(transactions, limit.GetOr(DefaultLimit));
    }
  }

  /** The recent transactions are the newest: none left out is newer than
      one listed. */
  lemma RecentAreNewest(ts: seq<Transaction>, limit: int, i: int, j: int)
    requires var s := SortDesc(ts, CreatedAt); 0 <= i < |Slice(s, limit)| <= j < |s|
    ensures SortDesc(ts, CreatedAt)[i].createdAt >= SortDesc(ts, CreatedAt)[j].createdAt
  {
  }

  /** `checkAuth`: the signed-in user, if any. */
  function CheckAuth(storage: LocalStorage): (r: Option<User>)
    reads storage
    ensures r.Some? <==> storage.store.currentUser.Some?
  {
    storage.store.currentUser
  }

  /** `logout`: forgets the signed-in user. */
  method Logout(storage: LocalStorage)
    modifies storage
    ensures storage.store == old(storage.store).(currentUser := None)
    ensures CheckAuth(storage).None?
  {
    storage.store := storage.store.(currentUser := None);
  }
}
