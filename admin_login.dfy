/** The administrator sign-in page: the same scheme as the company
    sign-in over a fixed list of administrators and the `currentAdmin`
    storage key. */
module AdminLogin {
  import opened Common
  import opened Seqs
  import opened Records
  import opened Storage

  /** The one administrator account. */
  const RootAdmin: Admin := Admin("admin1", "admin@hub.com", "admin123", "Administrador", "admin")

  /** The first administrator whose email and password both match exactly. */
  function Authenticate(admins: seq<Admin>, email: string, password: string): (r: Option<Admin>)
    ensures r.None? <==> forall a :: a in admins ==> a.email != email || a.password != password
    ensures r.Some? ==> r.value in admins && r.value.email == email && r.value.password == password
  {
    Find(admins, (a: Admin) => a.email == email && a.password == password)
  }

  /** Of several matching administrators the one stored first signs in. */
  lemma AuthenticateFirst(admins: seq<Admin>, email: string, password: string, i: nat)
    requires i < |admins| && admins[i].email == email && admins[i].password == password
    requires forall j :: 0 <= j < i ==> admins[j].email != email || admins[j].password != password
    ensures Authenticate(admins, email, password) == Some(admins[i])
  {
    var k := FindIndex(admins, (a: Admin) => a.email == email && a.password == password);
    assert k.Some?;
  }

  /** Only the fixed credentials open the administrator pages. */
  lemma OnlyRootAdmin(email: string, password: string)
    ensures Authenticate([RootAdmin], email, password).Some? <==> email == "admin@hub.com" && password == "admin123"
  {
  }

  class AdminAuthSystem {
    const storage: LocalStorage
    const admins: seq<Admin>
    var currentAdmin: Option<Admin>

    /** The fixed administrator list; the signed-in administrator is
        restored from storage. */
    constructor(storage: LocalStorage)
      ensures this.storage == storage && admins == [RootAdmin]
      ensures currentAdmin == storage.store.currentAdmin
    {
      this.storage := storage;
      admins := [RootAdmin];
      currentAdmin := storage.store.currentAdmin;
    }

    /** `login`: true exactly when an administrator matches; then that one
        is signed in and stored, otherwise nothing changes. */
    method Login(email: string, password: string) returns (ok: bool)
      modifies this, storage
      ensures ok == Authenticate(admins, email, password).Some?
      ensures ok ==>
        && currentAdmin == Authenticate(admins, email, password)
        && storage.store == old(storage.store).(currentAdmin := currentAdmin)
      ensures !ok ==> currentAdmin == old(currentAdmin) && storage.store == old(storage.store)
    {
      var admin := Find(admins, (a: Admin) => a.email == email && a.password == password);
      if admin.Some? {
        currentAdmin := admin;
        storage.store := storage.store.(currentAdmin := admin);
        ok := true;
      } else {
        ok := false;
      }
    }

    /** `logout`: nobody is signed in, in the object or in storage. */
    method Logout()
      modifies this, storage
      ensures currentAdmin.None? && !IsLoggedIn()
      ensures storage.store == old(storage.store).(currentAdmin := None)
    {
      currentAdmin := None;
      storage.store := storage.store.(currentAdmin := None);
    }

    /** `getCurrentAdmin`. */
    function GetCurrentAdmin(): (r: Option<Admin>)
      reads this
      ensures r.Some? == IsLoggedIn()
    {
      currentAdmin
    }

    /** `isLoggedIn`. */
    predicate IsLoggedIn()
      reads this
    {
      currentAdmin.Some?
    }
  }
}
