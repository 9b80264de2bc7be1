/** The company registration page used by a signed-in user: its own
    registration system over the `companies` and `users` keys, a different
    validation chain, and a submit handler that adds only the company. */
module CompanyRegister {
  import opened Common
  import opened Seqs
  import opened Text
  import opened Records
  import opened Storage
  import opened Cnpj
  import Register

  /** `emailExists`: here both the users and the companies are consulted. */
  function EmailExists(users: seq<User>, companies: seq<Company>, email: string): (b: bool)
    ensures b <==> (exists u :: u in users && u.email == email) || (exists c :: c in companies && c.email == email)
  {
    Any(users, (u: User) => u.email == email) || Any(companies, (c: Company) => c.email == email)
  }

  /** The form, every field as typed. */
  datatype CompanyForm = CompanyForm(
    companyName: string,
    email: string,
    cnpj: string,
    area: string,
    website: string,
    description: string,
    representativeName: string,
    phone: string)

  /** The message `validateForm` shows, one per check. */
  datatype CompanyError =
    | MissingName
    | InvalidCnpj
    | DuplicateCnpj
    | MissingArea
    | MissingDescription
    | MissingRepresentative
    | InvalidEmail
    | DuplicateEmail
    | MissingPhone

  /** The position of each check in the chain. */
  function Rank(e: CompanyError): nat
  {
    match e
    case MissingName => 0
    case InvalidCnpj => 1
    case DuplicateCnpj => 2
    case MissingArea => 3
    case MissingDescription => 4
    case MissingRepresentative => 5
    case InvalidEmail => 6
    case DuplicateEmail => 7
    case MissingPhone => 8
  }

  /** The condition under which each check rejects the form. The area comes
      from a select and only an empty value fails, without trimming. */
  predicate Fails(f: CompanyForm, companies: seq<Company>, users: seq<User>, e: CompanyError)
  {
    match e
    case MissingName => IsBlank(f.companyName)
    case InvalidCnpj => !IsValidCnpj(f.cnpj)
    case DuplicateCnpj => Register.CnpjExists(companies, f.cnpj)
    case MissingArea => f.area == ""
    case MissingDescription => IsBlank(f.description)
    case MissingRepresentative => IsBlank(f.representativeName)
    case InvalidEmail => !Contains(f.email, "@")
    case DuplicateEmail => EmailExists(users, companies, f.email)
    case MissingPhone => IsBlank(f.phone)
  }

  /** `validateForm`: accepted (`None`) only when no check fails; otherwise
      the error shown is that of the first failing check. */
  function ValidateForm(f: CompanyForm, companies: seq<Company>, users: seq<User>): (r: Option<CompanyError>)
    ensures r.None? ==> forall e :: !Fails(f, companies, users, e)
    ensures r.Some? ==> Fails(f, companies, users, r.value)
    ensures r.Some? ==> forall e :: Rank(e) < Rank(r.value) ==> !Fails(f, companies, users, e)
  {
    if IsBlank(f.companyName) then Some(MissingName)
    else if !IsValidCnpj(f.cnpj) then Some(InvalidCnpj)
    else if Register.CnpjExists(companies, f.cnpj) then Some(DuplicateCnpj)
    else if f.area == "" then Some(MissingArea)
    else if IsBlank(f.description) then Some(MissingDescription)
    else if IsBlank(f.representativeName) then Some(MissingRepresentative)
    else if !Contains(f.email, "@") then Some(InvalidEmail)
    else if EmailExists(users, companies, f.email) then Some(DuplicateEmail)
    else if IsBlank(f.phone) then Some(MissingPhone)
    else None
  }

  /** An accepted form carries a valid identifier no company uses and an
      email no user and no company uses. */
  lemma AcceptedFormIsFresh(f: CompanyForm, companies: seq<Company>, users: seq<User>)
    requires ValidateForm(f, companies, users).None?
    ensures IsValidCnpj(f.cnpj) && forall c :: c in companies ==> c.cnpj != f.cnpj
    ensures forall u :: u in users ==> u.email != f.email
    ensures forall c :: c in companies ==> c.email != f.email
  {
    assert !Fails(f, companies, users, InvalidCnpj) && !Fails(f, companies, users, DuplicateCnpj);
    assert !Fails(f, companies, users, DuplicateEmail);
  }

  /** The page's registration system. */
  class CompanyRegistrationSystem {
    const storage: LocalStorage
    var companies: seq<Company>
    var users: seq<User>

    /** `loadData`: an absent key is an empty list. */
    constructor(storage: LocalStorage)
      ensures this.storage == storage
      ensures companies == storage.store.companies.GetOr([])
      ensures users == storage.store.users.GetOr([])
    {
      this.storage := storage;
      companies := storage.store.companies.GetOr([]);
      users := storage.store.users.GetOr([]);
    }

    /** `addCompany`: appends one company awaiting approval, then `saveData`
        writes both lists back. */
    method AddCompany(data: CompanyData, now: nat) returns (c: Company)
      modifies this, storage
      ensures c == PendingCompany(data, now)
      ensures companies == old(companies) + [c] && users == old(users)
      ensures storage.store == old(storage.store).(companies := Some(companies), users := Some(users))
    {
      c := PendingCompany(data, now);
      companies := companies + [c];
      storage.store := storage.store.(companies := Some(companies), users := Some(users));
    }
  }

  /** The company built from the form. */
  function FormCompany(f: CompanyForm): CompanyData
  {
    CompanyData(f.companyName, f.email, f.cnpj, f.area, f.website, f.description, f.representativeName, f.phone)
  }

  /** The submit handler: a rejected form changes nothing; an accepted one
      adds one pending company. */
  method Submit(sys: CompanyRegistrationSystem, f: CompanyForm, now: nat) returns (r: Option<CompanyError>)
    modifies sys, sys.storage
    ensures r == ValidateForm(f, old(sys.companies), old(sys.users))
    ensures r.Some? ==> sys.companies == old(sys.companies) && sys.storage.store == old(sys.storage.store)
    ensures r.None? ==> sys.companies == old(sys.companies) + [PendingCompany(FormCompany(f), now)]
    ensures r.None? ==> sys.storage.store == old(sys.storage.store).(companies := Some(sys.companies), users := Some(sys.users))
    ensures sys.users == old(sys.users)
    ensures Register.UniqueCnpjs(old(sys.companies)) ==> Register.UniqueCnpjs(sys.companies)
  {
    r := ValidateForm(f, sys.companies, sys.users);
    if r.Some? {
      return;
    }
    AcceptedFormIsFresh(f, sys.companies, sys.users);
    var c := sys.AddCompany(FormCompany(f), now);
    if Register.UniqueCnpjs(old(sys.companies)) {
      Register.AppendKeepsCnpjsUnique(old(sys.companies), c);
    }
  }
}
