/** The records the pages keep in storage. Every timestamp is a count of
    milliseconds; prices are exact numbers. */
module Records {
  import opened Common
  import opened Text
  import opened Seqs

  datatype Company = Company(
    id: string,
    name: string,
    email: string,
    cnpj: string,
    area: string,
    website: string,
    description: string,
    representativeName: string,
    phone: string,
    approved: bool,
    createdAt: int)

  /** The fields a registration form supplies for a new company. */
  datatype CompanyData = CompanyData(
    name: string,
    email: string,
    cnpj: string,
    area: string,
    website: string,
    description: string,
    representativeName: string,
    phone: string)

  /** `{...data, id: 'comp' + Date.now(), approved: false, createdAt: new Date()}`:
      a new company awaiting approval, both clock readings being `now`. */
  function PendingCompany(data: CompanyData, now: nat): (c: Company)
    ensures !c.approved && c.createdAt == now
  {
    Company("comp" + DecimalString(now), data.name, data.email, data.cnpj, data.area,
      data.website, data.description, data.representativeName, data.phone, false, now)
  }

  /** `tags` is the free-text tag list; an absent list is the empty string. */
  datatype Product = Product(
    id: string,
    companyId: string,
    name: string,
    category: string,
    price: real,
    description: string,
    tags: string,
    discount: int,
    approved: bool,
    createdAt: int)

  /** The numeric fields may be missing from a stored record (`None`). */
  datatype Transaction = Transaction(
    id: string,
    productId: string,
    buyerCompanyId: string,
    sellerCompanyId: string,
    originalPrice: Option<real>,
    discount: Option<int>,
    finalPrice: Option<real>,
    status: string,
    createdAt: int)

  datatype User = User(
    id: int,
    email: string,
    password: string,
    name: string,
    role: string,
    companyId: string)

  datatype Admin = Admin(
    id: string,
    email: string,
    password: string,
    name: string,
    role: string)

  /** The key the transaction lists are sorted on, newest first. */
  function CreatedAt(t: Transaction): int { t.createdAt }

  /** The demonstration account: the fallback user of the registration
      page and the one account the sign-in page knows. */
  const DemoUser: User := User(1, "empresa@hub.com", "empresa123", "Empresa Exemplo", "company", "comp1")

  /** The only status any page writes. */
  const Completed: string := "completed"

  /** `x || 0` for a stored amount. */
  function Amount(x: Option<real>): real { x.GetOr(0.0) }

  /** `x || 0` for a stored percentage. */
  function Percent(x: Option<int>): int { x.GetOr(0) }

  /** `ts.reduce((sum, t) => sum + (t.finalPrice || 0), 0)`. */
  function TotalFinalPrice(ts: seq<Transaction>): real
  {
    Sum(ts, (t: Transaction) => Amount(t.finalPrice))
  }

  /** The total grows by the amount of each transaction appended. */
  lemma TotalFinalPriceAppend(ts: seq<Transaction>, t: Transaction)
    ensures TotalFinalPrice(ts + [t]) == TotalFinalPrice(ts) + Amount(t.finalPrice)
  {
    SumAppend(ts, [t], (t: Transaction) => Amount(t.finalPrice));
  }

  /** No stored amount is negative, so neither is the total. */
  lemma {:induction false} TotalFinalPriceNonNegative(ts: seq<Transaction>)
    requires forall i :: 0 <= i < |ts| ==> Amount(ts[i].finalPrice) >= 0.0
    ensures TotalFinalPrice(ts) >= 0.0
  {
    if ts != [] {
      TotalFinalPriceNonNegative(ts[1..]);
    }
  }

  // The pending and approved views every page takes of the collections.

  /** `getPendingCompanies`. */
  function PendingCompanies(cs: seq<Company>): seq<Company>
  {
    Filter(cs, (c: Company) => !c.approved)
  }

  /** `getApprovedCompanies`. */
  function ApprovedCompanies(cs: seq<Company>): seq<Company>
  {
    Filter(cs, (c: Company) => c.approved)
  }

  /** `getPendingProducts`. */
  function PendingProducts(ps: seq<Product>): seq<Product>
  {
    Filter(ps, (p: Product) => !p.approved)
  }

  /** `getApprovedProducts`. */
  function ApprovedProducts(ps: seq<Product>): seq<Product>
  {
    Filter(ps, (p: Product) => p.approved)
  }
}
