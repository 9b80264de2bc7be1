/** The transaction history of the signed-in company: its purchases and
    sales, narrowed by status, period and a search term and listed newest
    first, and the summary of its completed transactions. */
module Transactions {
  import opened Common
  import opened Seqs
  import opened Text
  import opened Numbers
  import opened Records
  import opened Storage

  /** Seven days in milliseconds. */
  const WeekMs: int := 7 * 24 * 60 * 60 * 1000

  /** What the page reads off a `Date` in local time: `dayOf` tells calendar
      days apart (as `toDateString` does), `monthOf` and `yearOf` are
      `getMonth` and `getFullYear`. */
  datatype Calendar = Calendar(dayOf: int -> int, monthOf: int -> int, yearOf: int -> int)

  /** `currentFilters`; an empty field is an inactive filter. */
  datatype TxFilters = TxFilters(status: string, period: string, search: string)

  /** The filters the page starts with and `clearFilters` restores. */
  const NoFilters: TxFilters := TxFilters("", "", "")

  /** What the search looks up besides the transaction itself, and the
      clock reading the period is measured from. */
  datatype Context = Context(products: seq<Product>, companies: seq<Company>, cal: Calendar, now: int)

  // ------------------------------------------------------------ Filters

  /** `getUserTransactions`: the company bought or sold. */
  predicate Involves(cid: string, t: Transaction)
  {
    t.buyerCompanyId == cid || t.sellerCompanyId == cid
  }

  function UserTransactions(ts: seq<Transaction>, cid: string): seq<Transaction>
  {
    Filter(ts, (t: Transaction) => Involves(cid, t))
  }

  /** The `switch` on the period: an unknown period keeps everything. */
  predicate InPeriod(cal: Calendar, period: string, now: int, at: int)
  {
    if period == "today" then cal.dayOf(at) == cal.dayOf(now)
    else if period == "week" then at >= now - WeekMs
    else if period == "month" then cal.monthOf(at) == cal.monthOf(now) && cal.yearOf(at) == cal.yearOf(now)
    else if period == "year" then cal.yearOf(at) == cal.yearOf(now)
    else true
  }

  /** The lowercased term occurs in the name of the product sold, in the
      name of the selling company, or in the transaction's id; a reference
      that resolves to nothing cannot match. */
  predicate SearchHit(ctx: Context, term: string, t: Transaction)
  {
    var product := Find(ctx.products, (p: Product) => p.id == t.productId);
    var seller := Find(ctx.companies, (c: Company) => c.id == t.sellerCompanyId);
    (product.Some? && Contains(Lower(product.value.name), term))
    || (seller.Some? && Contains(Lower(seller.value.name), term))
    || Contains(Lower(t.id), term)
  }

  predicate StatusOk(f: TxFilters, t: Transaction)
  {
    f.status == "" || t.status == f.status
  }

  predicate PeriodOk(ctx: Context, f: TxFilters, t: Transaction)
  {
    f.period == "" || InPeriod(ctx.cal, f.period, ctx.now, t.createdAt)
  }

  predicate SearchOk(ctx: Context, f: TxFilters, t: Transaction)
  {
    f.search == "" || SearchHit(ctx, Lower(f.search), t)
  }

  /** A transaction is listed when it involves the company and passes
      every active filter. */
  predicate Kept(ctx: Context, cid: string, f: TxFilters, t: Transaction)
  {
    Involves(cid, t) && StatusOk(f, t) && PeriodOk(ctx, f, t) && SearchOk(ctx, f, t)
  }

  /** What `getFilteredTransactions` lists: the kept transactions, newest first. */
  function FilteredTransactions(ts: seq<Transaction>, ctx: Context, cid: string, f: TxFilters): seq<Transaction>
  {
    SortDesc(Filter(ts, (t: Transaction) => Kept(ctx, cid, f, t)), CreatedAt)
  }

  /** The listing holds exactly the company's transactions that pass every
      active filter, each as often as it is stored, newest first. */
  lemma FilteredTransactionsExact(ts: seq<Transaction>, ctx: Context, cid: string, f: TxFilters)
    ensures var r := FilteredTransactions(ts, ctx, cid, f);
      && multiset(r) == multiset(Filter(UserTransactions(ts, cid), (t: Transaction) => Kept(ctx, cid, f, t)))
      && (forall t :: t in r <==> t in UserTransactions(ts, cid) && Kept(ctx, cid, f, t))
      && SortedDesc(r, CreatedAt)
  {
    var kept := (t: Transaction) => Kept(ctx, cid, f, t);
    FilterFilter(ts, (t: Transaction) => Involves(cid, t), kept, kept);
    var r := FilteredTransactions(ts, ctx, cid, f);
    forall t ensures t in r <==> t in Filter(ts, kept) {
      assert t in r <==> t in multiset(r);
    }
  }

  /** What each active filter guarantees of every listed transaction. */
  lemma FilteredTransactionsMatch(ts: seq<Transaction>, ctx: Context, cid: string, f: TxFilters, t: Transaction)
    requires t in FilteredTransactions(ts, ctx, cid, f)
    ensures t in ts && Involves(cid, t)
    ensures f.status != "" ==> t.status == f.status
    ensures f.period == "week" ==> t.createdAt >= ctx.now - WeekMs
    ensures f.period == "today" ==> ctx.cal.dayOf(t.createdAt) == ctx.cal.dayOf(ctx.now)
    ensures f.period == "month" ==>
      && ctx.cal.monthOf(t.createdAt) == ctx.cal.monthOf(ctx.now)
      && ctx.cal.yearOf(t.createdAt) == ctx.cal.yearOf(ctx.now)
    ensures f.period == "year" ==> ctx.cal.yearOf(t.createdAt) == ctx.cal.yearOf(ctx.now)
    ensures f.search != "" ==> SearchHit(ctx, Lower(f.search), t)
  {
    var kept := (t: Transaction) => Kept(ctx, cid, f, t);
    assert t in multiset(FilteredTransactions(ts, ctx, cid, f));
    assert t in Filter(ts, kept);
  }

  /** Without active filters every transaction of the company is listed. */
  lemma NoFiltersListsAll(ts: seq<Transaction>, ctx: Context, cid: string)
    ensures FilteredTransactions(ts, ctx, cid, NoFilters) == SortDesc(UserTransactions(ts, cid), CreatedAt)
  {
    FilterCongruent(ts, (t: Transaction) => Kept(ctx, cid, NoFilters, t), (t: Transaction) => Involves(cid, t));
  }

  /** A transaction whose product and seller resolve to nothing is found
      by its id alone. */
  lemma DanglingFoundById(ctx: Context, term: string, t: Transaction)
    requires forall p :: p in ctx.products ==> p.id != t.productId
    requires forall c :: c in ctx.companies ==> c.id != t.sellerCompanyId
    ensures SearchHit(ctx, term, t) <==> Contains(Lower(t.id), term)
  {
  }

  // ------------------------------------------------------------ Summary

  datatype Summary = Summary(totalSpent: real, totalSaved: real, totalTransactions: nat, avgDiscount: int)

  /** The completed transactions of the company. */
  function CompletedOf(ts: seq<Transaction>, cid: string): seq<Transaction>
  {
    Filter(UserTransactions(ts, cid), (t: Transaction) => t.status == Completed)
  }

  /** The completed transactions in which the company bought. */
  function Purchases(ts: seq<Transaction>, cid: string): seq<Transaction>
  {
    Filter(CompletedOf(ts, cid), (t: Transaction) => t.buyerCompanyId == cid)
  }

  function Saved(t: Transaction): real { Amount(t.originalPrice) - Amount(t.finalPrice) }

  function Paid(t: Transaction): real { Amount(t.finalPrice) }

  function Listed(t: Transaction): real { Amount(t.originalPrice) }

  /** `getSummary`, over the completed transactions of the company. */
  function GetSummary(ts: seq<Transaction>, cid: string): (s: Summary)
    ensures s.totalSpent == Sum(Purchases(ts, cid), Paid) && s.totalTransactions == |CompletedOf(ts, cid)|
    ensures s.avgDiscount == RoundedMean(Map(CompletedOf(ts, cid), (t: Transaction) => Percent(t.discount)))
    ensures s.totalSpent + s.totalSaved == Sum(Purchases(ts, cid), Listed)
    ensures CompletedOf(ts, cid) == [] ==> s.totalTransactions == 0 && s.avgDiscount == 0
  {
    var done := CompletedOf(ts, cid);
    var bought := Purchases(ts, cid);
    SumPointwise(bought, Paid, Saved, Listed);
    Summary(Sum(bought, Paid), Sum(bought, Saved), |done|,
      RoundedMean(Map(done, (t: Transaction) => Percent(t.discount))))
  }

  /** The count takes in both sides: the purchases, and the completed
      sales in which the company did not also buy. */
  lemma SummaryCountsBothSides(ts: seq<Transaction>, cid: string)
    ensures var sold := Filter(CompletedOf(ts, cid), (t: Transaction) => t.buyerCompanyId != cid);
      && GetSummary(ts, cid).totalTransactions == |Purchases(ts, cid)| + |sold|
      && forall t :: t in sold ==> t.sellerCompanyId == cid && t.status == Completed
  {
    FilterPartition(CompletedOf(ts, cid), (t: Transaction) => t.buyerCompanyId == cid,
      (t: Transaction) => t.buyerCompanyId != cid);
  }

  /** With every stored discount between 0 and 100 the average is too. */
  lemma SummaryDiscountBounds(ts: seq<Transaction>, cid: string)
    requires forall t :: t in ts ==> 0 <= Percent(t.discount) <= 100
    ensures 0 <= GetSummary(ts, cid).avgDiscount <= 100
  {
    var done := CompletedOf(ts, cid);
    if done != [] {
      var ds := Map(done, (t: Transaction) => Percent(t.discount));
      assert forall i :: 0 <= i < |done| ==> done[i] in done;
      MeanWithinBounds(ds, 0, 100);
    }
  }

  /** Nothing spent or saved by a company that bought nothing. */
  lemma SummaryWithoutPurchases(ts: seq<Transaction>, cid: string)
    requires forall t :: t in ts ==> t.buyerCompanyId != cid
    ensures GetSummary(ts, cid).totalSpent == 0.0 && GetSummary(ts, cid).totalSaved == 0.0
  {
    FilterNone(CompletedOf(ts, cid), (t: Transaction) => t.buyerCompanyId == cid);
  }

  // ---------------------------------------------------------- The system

  class TransactionSystem {
    const storage: LocalStorage
    var transactions: seq<Transaction>
    var products: seq<Product>
    var companies: seq<Company>
    var currentUser: Option<User>
    var currentFilters: TxFilters

    /** Loads the data and starts with no filter. */
    constructor(storage: LocalStorage)
      ensures this.storage == storage
      ensures transactions == storage.store.transactions.GetOr([])
      ensures products == storage.store.products.GetOr([])
      ensures companies == storage.store.companies.GetOr([])
      ensures currentUser == storage.store.currentUser
      ensures currentFilters == NoFilters
    {
      this.storage := storage;
      transactions := storage.store.transactions.GetOr([]);
      products := storage.store.products.GetOr([]);
      companies := storage.store.companies.GetOr([]);
      currentUser := storage.store.currentUser;
      currentFilters := NoFilters;
    }

    /** `getFilteredTransactions`, at clock reading `now`: narrowed filter by
        filter, then sorted newest first. The page only runs it for a
        signed-in company. */
    method GetFilteredTransactions(cal: Calendar, now: int) returns (filtered: seq<Transaction>)
      requires currentUser.Some?
      ensures filtered == FilteredTransactions(transactions,
        Context(products, companies, cal, now), currentUser.value.companyId, currentFilters)
    {
      var cid := currentUser.value.companyId;
      var f := currentFilters;
      var ctx := Context(products, companies, cal, now);
      filtered := UserTransactions(transactions, cid);
      var byStatus := (t: Transaction) => Involves(cid, t) && StatusOk(f, t);
      if f.status != "" {
        FilterFilter(transactions, (t: Transaction) => Involves(cid, t), (t: Transaction) => t.status == f.status, byStatus);
        filtered := Filter(filtered, (t: Transaction) => t.status == f.status);
      } else {
        FilterCongruent(transactions, (t: Transaction) => Involves(cid, t), byStatus);
      }
      var byPeriod := (t: Transaction) => byStatus(t) && PeriodOk(ctx, f, t);
      if f.period != "" {
        FilterFilter(transactions, byStatus, (t: Transaction) => InPeriod(cal, f.period, now, t.createdAt), byPeriod);
        filtered := Filter(filtered, (t: Transaction) => InPeriod(cal, f.period, now, t.createdAt));
      } else {
        FilterCongruent(transactions, byStatus, byPeriod);
      }
      var kept := (t: Transaction) => Kept(ctx, cid, f, t);
      if f.search != "" {
        var term := Lower(f.search);
        FilterFilter(transactions, byPeriod, (t: Transaction) => SearchHit(ctx, term, t), kept);
        filtered := Filter(filtered, (t: Transaction) => SearchHit(ctx, term, t));
      } else {
        FilterCongruent(transactions, byPeriod, kept);
      }
      filtered := SortDesc(filtered, CreatedAt);
    }

    /** `filterTransactions`: sets the status and the period. */
    method FilterTransactions(status: string, period: string)
      modifies this
      ensures currentFilters == old(currentFilters).(status := status, period := period)
      ensures transactions == old(transactions) && products == old(products)
      ensures companies == old(companies) && currentUser == old(currentUser)
    {
      currentFilters := currentFilters.(status := status, period := period);
    }

    /** `searchTransactions`: sets the search term. */
    method SearchTransactions(term: string)
      modifies this
      ensures currentFilters == old(currentFilters).(search := term)
      ensures transactions == old(transactions) && products == old(products)
      ensures companies == old(companies) && currentUser == old(currentUser)
    {
      currentFilters := currentFilters.(search := term);
    }

    /** `clearFilters`: afterwards every transaction of the company is
        listed, newest first. */
    method ClearFilters()
      modifies this
      ensures currentFilters == NoFilters
      ensures transactions == old(transactions) && products == old(products)
      ensures companies == old(companies) && currentUser == old(currentUser)
    {
      currentFilters := NoFilters;
    }
  }
}
