/** The browser's local key-value storage, shared by every page. Each key
    holds one collection or one session record; `None` is a key that was
    never written (or was removed). */
module Storage {
  import opened Common
  import opened Records

  datatype Store = Store(
    companies: Option<seq<Company>>,
    products: Option<seq<Product>>,
    transactions: Option<seq<Transaction>>,
    users: Option<seq<User>>,
    currentUser: Option<User>,
    currentAdmin: Option<Admin>)

  class LocalStorage {
    var store: Store

    constructor(initial: Store)
      ensures store == initial
    {
      store := initial;
    }
  }
}
