/** The self-service registration page: its data system over the
    `companies` and `users` keys, its ordered validation chain and the
    submit handler that creates a company together with the user who
    represents it. */
module Register {
  import opened Common
  import opened Seqs
  import opened Text
  import opened Records
  import opened Storage
  import opened Cnpj

  /** 2024-01-15T00:00:00Z in milliseconds. */
  const SeedCreatedAt: int := 1705276800000

  /** The company the page falls back to when nothing is stored. */
  const SeedCompany: Company := Company(
    "comp1", "TechSolutions Ltda", "contato@techsolutions.com", "12.345.678/0001-90",
    "Tecnologia", "https://techsolutions.com",
    "Solu\U{00E7}\U{00F5}es tecnol\U{00F3}gicas inovadoras", "Jo\U{00E3}o Silva",
    "(11) 99999-9999", true, SeedCreatedAt)

  /** `emailExists`: only the users are consulted, not the companies. */
  function EmailExists(users: seq<User>, email: string): (b: bool)
    ensures b <==> exists u :: u in users && u.email == email
  {
    Any(users, (u: User) => u.email == email)
  }

  /** `cnpjExists`: the stored text is compared as typed, punctuation included. */
  function CnpjExists(companies: seq<Company>, cnpj: string): (b: bool)
    ensures b <==> exists c :: c in companies && c.cnpj == cnpj
  {
    Any(companies, (c: Company) => c.cnpj == cnpj)
  }

  /** The registration form, every field as typed. */
  datatype RegisterForm = RegisterForm(
    companyName: string,
    email: string,
    cnpj: string,
    area: string,
    website: string,
    description: string,
    representativeName: string,
    phone: string,
    password: string,
    confirmPassword: string)

  /** The message `validateForm` shows, one per check. */
  datatype RegisterError =
    | MissingName
    | InvalidCnpj
    | DuplicateCnpj
    | InvalidEmail
    | DuplicateEmail
    | ShortPassword
    | PasswordMismatch
    | MissingRepresentative
    | MissingPhone
    | MissingDescription

  /** The position of each check in the chain. */
  function Rank(e: RegisterError): nat
  {
    match e
    case MissingName => 0
    case InvalidCnpj => 1
    case DuplicateCnpj => 2
    case InvalidEmail => 3
    case DuplicateEmail => 4
    case ShortPassword => 5
    case PasswordMismatch => 6
    case MissingRepresentative => 7
    case MissingPhone => 8
    case MissingDescription => 9
  }

  /** The condition under which each check rejects the form. */
  predicate Fails(f: RegisterForm, companies: seq<Company>, users: seq<User>, e: RegisterError)
  {
    match e
    case MissingName => IsBlank(f.companyName)
    case InvalidCnpj => !IsValidCnpj(f.cnpj)
    case DuplicateCnpj => CnpjExists(companies, f.cnpj)
    case InvalidEmail => !Contains(f.email, "@")
    case DuplicateEmail => EmailExists(users, f.email)
    case ShortPassword => |f.password| < 6
    case PasswordMismatch => f.password != f.confirmPassword
    case MissingRepresentative => IsBlank(f.representativeName)
    case MissingPhone => IsBlank(f.phone)
    case MissingDescription => IsBlank(f.description)
  }

  /** `validateForm`: the form is accepted (`None`) exactly when no check
      fails; otherwise the error shown is that of the first failing check. */
  function ValidateForm(f: RegisterForm, companies: seq<Company>, users: seq<User>): (r: Option<RegisterError>)
    ensures r.None? ==> forall e :: !Fails(f, companies, users, e)
    ensures r.Some? ==> Fails(f, companies, users, r.value)
    ensures r.Some? ==> forall e :: Rank(e) < Rank(r.value) ==> !Fails(f, companies, users, e)
  {
    if IsBlank(f.companyName) then Some(MissingName)
    else if !IsValidCnpj(f.cnpj) then Some(InvalidCnpj)
    else if CnpjExists(companies, f.cnpj) then Some(DuplicateCnpj)
    else if !Contains(f.email, "@") then Some(InvalidEmail)
    else if EmailExists(users, f.email) then Some(DuplicateEmail)
    else if |f.password| < 6 then Some(ShortPassword)
    else if f.password != f.confirmPassword then Some(PasswordMismatch)
    else if IsBlank(f.representativeName) then Some(MissingRepresentative)
    else if IsBlank(f.phone) then Some(MissingPhone)
    else if IsBlank(f.description) then Some(MissingDescription)
    else None
  }

  /** An accepted form carries a valid, unused identifier and an unused
      email with an `@`, and a confirmed password of at least six characters. */
  lemma AcceptedFormIsFresh(f: RegisterForm, companies: seq<Company>, users: seq<User>)
    requires ValidateForm(f, companies, users).None?
    ensures IsValidCnpj(f.cnpj) && forall c :: c in companies ==> c.cnpj != f.cnpj
    ensures Contains(f.email, "@") && forall u :: u in users ==> u.email != f.email
    ensures |f.password| >= 6 && f.password == f.confirmPassword
  {
    assert !Fails(f, companies, users, InvalidCnpj) && !Fails(f, companies, users, DuplicateCnpj);
    assert !Fails(f, companies, users, InvalidEmail) && !Fails(f, companies, users, DuplicateEmail);
    assert !Fails(f, companies, users, ShortPassword) && !Fails(f, companies, users, PasswordMismatch);
  }

  /** A form with a name and a valid identifier no company stores gets
      past the first three checks: it is accepted or fails a later one. */
  lemma PastIdentifierChecks(f: RegisterForm, companies: seq<Company>, users: seq<User>)
    requires !IsBlank(f.companyName) && IsValidCnpj(f.cnpj) && !CnpjExists(companies, f.cnpj)
    ensures var r := ValidateForm(f, companies, users); r.None? || Rank(r.value) > Rank(DuplicateCnpj)
  {
  }

  /** The duplicate check is textual: a stored identifier typed with its
      punctuation does not block the same digits typed without it, and the
      form gets past both identifier checks. */
  lemma SameDigitsOtherPunctuation(c: Company, f: RegisterForm)
    requires c.cnpj == "11.222.333/0001-81" && f.cnpj == "11222333000181"
    requires !IsBlank(f.companyName)
    ensures DigitsOf(f.cnpj) == DigitsOf(c.cnpj)
    ensures var r := ValidateForm(f, [c], []); r.None? || Rank(r.value) > Rank(DuplicateCnpj)
  {
    AcceptsKnownValid();
    AcceptsKnownValidDigits();
    assert DigitsOf(f.cnpj) == DigitsOf(c.cnpj);
    assert !CnpjExists([c], f.cnpj) by {
      assert c.cnpj[2] != f.cnpj[2];
    }
    PastIdentifierChecks(f, [c], []);
  }

  /** The page's data system. */
  class DataSystem {
    const storage: LocalStorage
    var companies: seq<Company>
    var users: seq<User>

    /** Loads both collections, falling back to the seed when a key is absent. */
    constructor(storage: LocalStorage)
      ensures this.storage == storage
      ensures companies == storage.store.companies.GetOr([SeedCompany])
      ensures users == storage.store.users.GetOr([DemoUser])
    {
      this.storage := storage;
      companies := storage.store.companies.GetOr([SeedCompany]);
      users := storage.store.users.GetOr([DemoUser]);
    }

    /** `addCompany`: appends one company awaiting approval and stores the list. */
    method AddCompany(data: CompanyData, now: nat) returns (c: Company)
      modifies this, storage
      ensures c == PendingCompany(data, now)
      ensures companies == old(companies) + [c] && users == old(users)
      ensures storage.store == old(storage.store).(companies := Some(companies))
    {
      c := PendingCompany(data, now);
      companies := companies + [c];
      storage.store := storage.store.(companies := Some(companies));
    }

    /** `addUser`: appends one user with role `company` and stores the list. */
    method AddUser(email: string, password: string, name: string, companyId: string, now: nat) returns (u: User)
      modifies this, storage
      ensures u == User(now, email, password, name, "company", companyId)
      ensures users == old(users) + [u] && companies == old(companies)
      ensures storage.store == old(storage.store).(users := Some(users))
    {
      u := User(now, email, password, name, "company", companyId);
      users := users + [u];
      storage.store := storage.store.(users := Some(users));
    }
  }

  /** The company fields the handler copies out of the form. */
  function FormCompany(f: RegisterForm): CompanyData
  {
    CompanyData(f.companyName, f.email, f.cnpj, f.area, f.website, f.description, f.representativeName, f.phone)
  }

  /** No two companies share an identifier text. */
  ghost predicate UniqueCnpjs(cs: seq<Company>)
  {
    forall i, j :: 0 <= i < j < |cs| ==> cs[i].cnpj != cs[j].cnpj
  }

  /** No two users share an email. */
  ghost predicate UniqueEmails(us: seq<User>)
  {
    forall i, j :: 0 <= i < j < |us| ==> us[i].email != us[j].email
  }

  /** Appending a company whose identifier is unused keeps identifiers unique. */
  lemma AppendKeepsCnpjsUnique(cs: seq<Company>, c: Company)
    requires UniqueCnpjs(cs) && !CnpjExists(cs, c.cnpj)
    ensures UniqueCnpjs(cs + [c])
  {
    forall i, j | 0 <= i < j < |cs + [c]| ensures (cs + [c])[i].cnpj != (cs + [c])[j].cnpj {
      if j == |cs| {
        assert (cs + [c])[i] in cs;
      }
    }
  }

  /** Appending a user whose email is unused keeps emails unique. */
  lemma AppendKeepsEmailsUnique(us: seq<User>, u: User)
    requires UniqueEmails(us) && !EmailExists(us, u.email)
    ensures UniqueEmails(us + [u])
  {
    forall i, j | 0 <= i < j < |us + [u]| ensures (us + [u])[i].email != (us + [u])[j].email {
      if j == |us| {
        assert (us + [u])[i] in us;
      }
    }
  }

  /** The submit handler: a rejected form changes nothing; an accepted one
      adds a pending company and a user for its representative that points
      at it. `companyClock` and `userClock` are the two clock readings. */
  method Submit(sys: DataSystem, f: RegisterForm, companyClock: nat, userClock: nat)
    returns (r: Option<RegisterError>)
    modifies sys, sys.storage
    ensures r == ValidateForm(f, old(sys.companies), old(sys.users))
    ensures r.Some? ==> sys.companies == old(sys.companies) && sys.users == old(sys.users)
    ensures r.Some? ==> sys.storage.store == old(sys.storage.store)
    ensures r.None? ==> var c := PendingCompany(FormCompany(f), companyClock);
      && sys.companies == old(sys.companies) + [c]
      && sys.users == old(sys.users) + [User(userClock, f.email, f.password, f.representativeName, "company", c.id)]
      && sys.storage.store == old(sys.storage.store).(companies := Some(sys.companies), users := Some(sys.users))
    ensures UniqueCnpjs(old(sys.companies)) ==> UniqueCnpjs(sys.companies)
    ensures UniqueEmails(old(sys.users)) ==> UniqueEmails(sys.users)
  {
    r := ValidateForm(f, sys.companies, sys.users);
    if r.Some? {
      return;
    }
    AcceptedFormIsFresh(f, sys.companies, sys.users);
    var c := sys.AddCompany(FormCompany(f), companyClock);
    var u := sys.AddUser(f.email, f.password, f.representativeName, c.id, userClock);
    if UniqueCnpjs(old(sys.companies)) {
      AppendKeepsCnpjsUnique(old(sys.companies), c);
    }
    if UniqueEmails(old(sys.users)) {
      AppendKeepsEmailsUnique(old(sys.users), u);
    }
  }
}
