/** The company sign-in page: an authentication object holding its fixed
    account list and the signed-in user, mirrored in the `currentUser`
    storage key. */
module Login {
  import opened Common
  import opened Seqs
  import opened Records
  import opened Storage

  /** The first account whose email and password both match exactly. */
  function Authenticate(users: seq<User>, email: string, password: string): (r: Option<User>)
    ensures r.None? <==> forall u :: u in users ==> u.email != email || u.password != password
    ensures r.Some? ==> r.value in users && r.value.email == email && r.value.password == password
  {
    Find(users, (u: User) => u.email == email && u.password == password)
  }

  /** Of several matching accounts the one stored first signs in. */
  lemma AuthenticateFirst(users: seq<User>, email: string, password: string, i: nat)
    requires i < |users| && users[i].email == email && users[i].password == password
    requires forall j :: 0 <= j < i ==> users[j].email != email || users[j].password != password
    ensures Authenticate(users, email, password) == Some(users[i])
  {
    var k := FindIndex(users, (u: User) => u.email == email && u.password == password);
    assert k.Some?;
  }

  /** The page knows only the demonstration account: an account created by
      the registration pages cannot sign in here. */
  lemma OnlyDemoAccount(email: string, password: string)
    ensures Authenticate([DemoUser], email, password).Some? <==> email == DemoUser.email && password == DemoUser.password
  {
  }

  class AuthSystem {
    const storage: LocalStorage
    const users: seq<User>
    var currentUser: Option<User>

    /** The fixed account list; the signed-in user is restored from storage. */
    constructor(storage: LocalStorage)
      ensures this.storage == storage && users == [DemoUser]
      ensures currentUser == storage.store.currentUser
    {
      this.storage := storage;
      users := [DemoUser];
      currentUser := storage.store.currentUser;
    }

    /** `login`: true exactly when an account matches; then that account
        is signed in and stored, otherwise nothing changes. */
    method Login(email: string, password: string) returns (ok: bool)
      modifies this, storage
      ensures ok == Authenticate(users, email, password).Some?
      ensures ok ==>
        && currentUser == Authenticate(users, email, password)
        && storage.store == old(storage.store).(currentUser := currentUser)
      ensures !ok ==> currentUser == old(currentUser) && storage.store == old(storage.store)
    {
      var user := Find(users, (u: User) => u.email == email && u.password == password);
      if user.Some? {
        currentUser := user;
        storage.store := storage.store.(currentUser := user);
        ok := true;
      } else {
        ok := false;
      }
    }

    /** `logout`: nobody is signed in, in the object or in storage. */
    method Logout()
      modifies this, storage
      ensures currentUser.None? && !IsLoggedIn()
      ensures storage.store == old(storage.store).(currentUser := None)
    {
      currentUser := None;
      storage.store := storage.store.(currentUser := None);
    }

    /** `getCurrentUser`. */
    function GetCurrentUser(): (r: Option<User>)
      reads this
      ensures r.Some? == IsLoggedIn()
    {
      currentUser
    }

    /** `isLoggedIn`. */
    predicate IsLoggedIn()
      reads this
    {
      currentUser.Some?
    }
  }
}
