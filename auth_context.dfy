/**
 * Session resolution and session state (contexts/AuthContext.tsx).
 *
 * Login normalises the CNPJ to its digits, picks the first mock company with the
 * same digits, then the first member with exactly the given email, under the one
 * mock password. The resolved user carries the company's name and formatted CNPJ.
 * `AuthProvider` holds the in-memory session and moves it in the source's order:
 * storage first, then the in-memory user, then navigation.
 */
module AuthContext {
  import opened Wrappers
  import opened Strings
  import opened Types
  import opened Seqs
  import opened Storage
  import MockData

  /** The mock password every member shares. */
  const MockPassword := "123456"

  datatype Company = Company(cnpj: string, name: string, users: seq<User>)

  const ExpressCnpj := "12.345.678/0001-90"
  const RapidoCnpj := "98.765.432/0001-10"

  const MockCompanies: seq<Company> := [
    Company(ExpressCnpj, "Express Delivery Ltda", [
      MockData.MockUser.(companyName := Some("Express Delivery Ltda"),
                         companyCnpj := Some(ExpressCnpj))
    ]),
    Company(RapidoCnpj, "Rápido Transportes S.A.", [
      User(2, "Maria Santos", "maria@exemplo.com", "(11) 88888-8888",
           "Yamaha Fazer 250", "XYZ-5678",
           Some("Rápido Transportes S.A."), Some(RapidoCnpj), None)
    ])
  ]

  // ---------------------------------------------------------------------------
  // Lookups

  /** `MOCK_COMPANIES.find(c => c.cnpj.replace(/\D/g, '') === cleanCnpj)`. */
  function FindCompany(companies: seq<Company>, cnpj: string): (r: Option<Company>)
    ensures r.Some? ==> r.value in companies && OnlyDigits(r.value.cnpj) == OnlyDigits(cnpj)
    ensures r.None? <==> forall k :: 0 <= k < |companies| ==> OnlyDigits(companies[k].cnpj) != OnlyDigits(cnpj)
    ensures r.Some? ==> exists k :: 0 <= k < |companies| && companies[k] == r.value &&
                                    forall j :: 0 <= j < k ==> OnlyDigits(companies[j].cnpj) != OnlyDigits(cnpj)
  {
    Find(companies, (c: Company) => OnlyDigits(c.cnpj) == OnlyDigits(cnpj))
  }

  /** `company.users.find(u => u.email === email && password === '123456')`. */
  function FindMember(company: Company, email: string, password: string): (r: Option<User>)
    ensures r.Some? ==> password == MockPassword && r.value in company.users && r.value.email == email
    ensures r.None? <==> password != MockPassword ||
                         forall j :: 0 <= j < |company.users| ==> company.users[j].email != email
    ensures r.Some? ==> exists j :: 0 <= j < |company.users| && company.users[j] == r.value &&
                                    forall i :: 0 <= i < j ==> company.users[i].email != email
  {
    Find(company.users, (u: User) => u.email == email && password == MockPassword)
  }

  /** `{ ...foundUser, companyName: company.name, companyCnpj: company.cnpj }`. */
  function WithCompany(u: User, company: Company): (r: User)
    ensures r.companyName == Some(company.name) && r.companyCnpj == Some(company.cnpj)
    ensures r.(companyName := u.companyName, companyCnpj := u.companyCnpj) == u
  {
    u.(companyName := Some(company.name), companyCnpj := Some(company.cnpj))
  }

  /** The decision part of `login`: the user record to persist, or `None` for `false`. */
  function ResolveSession(companies: seq<Company>, email: string, password: string, cnpj: string): (r: Option<User>)
    ensures r.Some? <==> password == MockPassword && FindCompany(companies, cnpj).Some? &&
                         exists j :: 0 <= j < |FindCompany(companies, cnpj).value.users| &&
                                     FindCompany(companies, cnpj).value.users[j].email == email
    ensures r.Some? ==> r.value.email == email &&
                        exists c, u :: c in companies && u in c.users &&
                                       OnlyDigits(c.cnpj) == OnlyDigits(cnpj) &&
                                       r.value == WithCompany(u, c) && r.value.companyCnpj == Some(c.cnpj)
    ensures r.Some? ==> var c := FindCompany(companies, cnpj).value;
                        exists j :: 0 <= j < |c.users| && r.value == WithCompany(c.users[j], c) &&
                                    forall i :: 0 <= i < j ==> c.users[i].email != email
  {
    match FindCompany(companies, cnpj)
    case None => None
    case Some(company) =>
      match FindMember(company, email, password)
      case None => None
      case Some(found) => Some(WithCompany(found, company))
  }

  /** Punctuation in the CNPJ input never changes the outcome of login. */
  lemma ResolveIgnoresNonDigit(companies: seq<Company>, email: string, password: string,
                               a: string, c: char, b: string)
    requires !IsDigit(c)
    ensures ResolveSession(companies, email, password, a + [c] + b) ==
            ResolveSession(companies, email, password, a + b)
  {
    OnlyDigitsIgnoresNonDigit(a, c, b);
    assert FindCompany(companies, a + [c] + b) == FindCompany(companies, a + b);
  }

  /**
   * The digits of the two seeded CNPJs. Taking the CNPJ as a parameter keeps the
   * verifier from unfolding `OnlyDigits` on the literal itself.
   */
  lemma ExpressCnpjDigits(s: string)
    requires s == "12.345.678/0001-90"
    ensures OnlyDigits(s) == "12345678000190"
  {
    assert MaskShaped(s);
    MaskedCnpjDigits(s);
    assert s[..2] == "12" && s[3..6] == "345" && s[7..10] == "678" && s[11..15] == "0001" && s[16..] == "90";
  }

  lemma RapidoCnpjDigits(s: string)
    requires s == "98.765.432/0001-10"
    ensures OnlyDigits(s) == "98765432000110"
  {
    assert MaskShaped(s);
    MaskedCnpjDigits(s);
    assert s[..2] == "98" && s[3..6] == "765" && s[7..10] == "432" && s[11..15] == "0001" && s[16..] == "10";
  }

  /** Which seeded company a CNPJ input selects. */
  lemma SeedCompanyFor(companies: seq<Company>, cnpj: string)
    requires companies == MockCompanies
    ensures FindCompany(companies, cnpj) ==
              if OnlyDigits(cnpj) == "12345678000190" then Some(companies[0])
              else if OnlyDigits(cnpj) == "98765432000110" then Some(companies[1])
              else None
  {
    ExpressCnpjDigits(companies[0].cnpj);
    RapidoCnpjDigits(companies[1].cnpj);
    var p := (c: Company) => OnlyDigits(c.cnpj) == OnlyDigits(cnpj);
    var k := FirstIndex(companies, p);
    if OnlyDigits(cnpj) == "12345678000190" {
      assert p(companies[0]);
      assert k == 0;
    } else if OnlyDigits(cnpj) == "98765432000110" {
      assert !p(companies[0]) && p(companies[1]);
      assert k == 1;
    } else {
      assert !p(companies[0]) && !p(companies[1]);
    }
  }

  /** The formatted and the bare CNPJ of the first company select the same session. */
  lemma FormattedAndBareCnpjAgree(email: string, password: string)
    ensures ResolveSession(MockCompanies, email, password, ExpressCnpj) ==
            ResolveSession(MockCompanies, email, password, "12345678000190")
  {
    ExpressCnpjDigits(ExpressCnpj);
    OnlyDigitsOfDigits("12345678000190");
  }

  /** Each seeded company has one member, found only by its exact email and the mock password. */
  lemma SeedMemberFor(company: Company, email: string, password: string)
    requires company in MockCompanies
    ensures FindMember(company, email, password) ==
              if password == MockPassword && email == company.users[0].email then Some(company.users[0])
              else None
  {
    var p := (u: User) => u.email == email && password == MockPassword;
    assert |company.users| == 1;
    if p(company.users[0]) {
      assert FirstIndex(company.users, p) == 0;
    }
  }

  /** Exactly two (email, password, CNPJ) combinations log in against the seed data. */
  lemma SeedLogins(email: string, password: string, cnpj: string)
    ensures ResolveSession(MockCompanies, email, password, cnpj).Some? <==>
              password == "123456" &&
              ((email == "joao@exemplo.com" && OnlyDigits(cnpj) == "12345678000190") ||
               (email == "maria@exemplo.com" && OnlyDigits(cnpj) == "98765432000110"))
  {
    SeedCompanyFor(MockCompanies, cnpj);
    SeedMemberFor(MockCompanies[0], email, password);
    SeedMemberFor(MockCompanies[1], email, password);
  }

  /** A maria@exemplo.com login under the other company's CNPJ fails. */
  lemma CrossCompanyLoginFails()
    ensures ResolveSession(MockCompanies, "maria@exemplo.com", MockPassword, ExpressCnpj).None?
  {
    ExpressCnpjDigits(ExpressCnpj);
    SeedLogins("maria@exemplo.com", MockPassword, ExpressCnpj);
  }

  // ---------------------------------------------------------------------------
  // Session state

  /** Where `router.replace` last sent the app; `Undecided` before the first navigation. */
  datatype Destination = Undecided | TabsScreen | LoginScreen

  /**
   * The provider's state `{user, isLoading}`, the navigation it triggered, and
   * the key-value store it persists the session in.
   */
  class AuthProvider {
    var user: Option<User>
    var isLoading: bool
    var destination: Destination
    const storage: KeyValueStore<User>
    /** The company directory logins are checked against: always `MockCompanies`. */
    const companies: seq<Company>

    /** The state before the start-up check runs: no user, still loading. */
    constructor (storage: KeyValueStore<User>)
      ensures user == None && isLoading && destination == Undecided
      ensures this.storage == storage && companies == MockCompanies
    {
      user := None;
      isLoading := true;
      destination := Undecided;
      this.storage := storage;
      companies := MockCompanies;
    }

    /**
     * `checkStoredUser`: adopt the stored session and go to the tabs, or go to
     * the login screen when there is none or the read fails; loading ends either way.
     */
    method CheckStoredUser()
      modifies this`user, this`isLoading, this`destination
      ensures !isLoading
      ensures UserKey !in storage.items ==> user == old(user) && destination == LoginScreen
      ensures storage.reliable && UserKey in storage.items ==>
                user == Some(storage.items[UserKey]) && destination == TabsScreen
      ensures (UserKey in storage.items && user == Some(storage.items[UserKey]) && destination == TabsScreen)
              || (user == old(user) && destination == LoginScreen)
    {
      var stored := storage.GetItem(UserKey);
      if stored.Found? {
        user := Some(stored.value);
        destination := TabsScreen;
      } else {
        destination := LoginScreen;
      }
      isLoading := false;
    }

    /**
     * `login`: resolve the session against the mock companies, persist it under
     * `"user"`, and only then adopt it in memory. `false` for every failure,
     * including a rejected storage write, and then nothing changes; on a
     * reliable store every resolved session logs in.
     */
    method Login(email: string, password: string, cnpj: string) returns (ok: bool)
      modifies this`user, this`destination, storage
      ensures ResolveSession(companies, email, password, cnpj).None? ==> !ok
      ensures storage.reliable && ResolveSession(companies, email, password, cnpj).Some? ==> ok
      ensures ok ==> ResolveSession(companies, email, password, cnpj).Some?
      ensures ok ==> var u := ResolveSession(companies, email, password, cnpj).value;
                     storage.items == old(storage.items)[UserKey := u] &&
                     user == Some(u) && destination == TabsScreen
      ensures !ok ==> storage.items == old(storage.items) && user == old(user) &&
                      destination == old(destination)
    {
      var company := FindCompany(companies, cnpj);
      if company.None? {
        return false;
      }
      var found := FindMember(company.value, email, password);
      if found.None? {
        return false;
      }
      var userWithCompany := WithCompany(found.value, company.value);
      var written := storage.SetItem(UserKey, userWithCompany);
      if !written {
        return false;
      }
      user := Some(userWithCompany);
      destination := TabsScreen;
      return true;
    }

    /**
     * `logout`: remove `"user"`, then clear the in-memory user and go to the login
     * screen. When the removal is rejected nothing changes; a reliable store
     * always removes it.
     */
    method Logout()
      modifies this`user, this`destination, storage
      ensures (storage.items == old(storage.items) - {UserKey} && user == None && destination == LoginScreen)
              || (storage.items == old(storage.items) && user == old(user) && destination == old(destination))
      ensures storage.reliable ==>
                storage.items == old(storage.items) - {UserKey} && user == None && destination == LoginScreen
    {
      var removed := storage.RemoveItem(UserKey);
      if removed {
        user := None;
        destination := LoginScreen;
      }
    }
  }

  /**
   * Mounting the provider: the initial state followed by the start-up check.
   * The session is the stored record, or none when nothing is stored.
   */
  method Mount(storage: KeyValueStore<User>) returns (p: AuthProvider)
    ensures fresh(p) && p.storage == storage && p.companies == MockCompanies && !p.isLoading
    ensures UserKey !in storage.items ==> p.user == None && p.destination == LoginScreen
    ensures storage.reliable && UserKey in storage.items ==>
              p.user == Some(storage.items[UserKey]) && p.destination == TabsScreen
    ensures (UserKey in storage.items && p.user == Some(storage.items[UserKey]) && p.destination == TabsScreen)
            || (p.user == None && p.destination == LoginScreen)
  {
    p := new AuthProvider(storage);
    p.CheckStoredUser();
  }
}
