/**
 * The writing half of backend/crud.py: create, partial update and delete of
 * companies, users and farmers, creation of seed distributions and harvest entries,
 * and receipt generation, over an in-memory copy of the six tables. Each write is one
 * transaction; a write the database refuses for a UNIQUE constraint raises
 * IntegrityError and changes nothing.
 */
module Crud {
  import opened Results
  import opened Tables
  import opened Models
  import opened Passwords
  import opened Queries
  import opened Ledger
  import opened Updates

  /** The state of the database: the six tables, each in primary-key order. */
  datatype Db = Db(
    companies: seq<Row<Company>>,
    users: seq<Row<User>>,
    farmers: seq<Row<Farmer>>,
    seedDistributions: seq<Row<SeedDistribution>>,
    harvestEntries: seq<Row<HarvestEntry>>,
    receipts: seq<Row<Receipt>>)

  /** Every table has ascending keys and satisfies its UNIQUE constraints. */
  predicate DbOk(s: Db) {
    && CompaniesOk(s.companies)
    && UsersOk(s.users)
    && FarmersOk(s.farmers)
    && IdsAscending(s.seedDistributions)
    && IdsAscending(s.harvestEntries)
    && IdsAscending(s.receipts)
  }

  /**
   * Does a user or a farmer name the company? Such a row blocks the company's delete:
   * the ORM would set its NOT NULL `company_id` to NULL.
   */
  predicate CompanyReferenced(s: Db, companyId: int) {
    !KeyFree(s.users, UserCompany, companyId) || !KeyFree(s.farmers, FarmerCompany, companyId)
  }

  /**
   * Does a seed distribution, harvest entry or receipt name the farmer? Such a row
   * blocks the farmer's delete: the ORM would set its NOT NULL `farmer_id` to NULL.
   */
  predicate FarmerReferenced(s: Db, farmerId: int) {
    || !KeyFree(s.seedDistributions, SeedFarmer, farmerId)
    || !KeyFree(s.harvestEntries, HarvestFarmer, farmerId)
    || !KeyFree(s.receipts, ReceiptFarmer, farmerId)
  }

  /** What a write returned: the stored row, no row with that key, or a refused commit. */
  datatype Write<T> = Done(row: T) | NoSuchRow | IntegrityError

  // ---------------------------------------------------------------------------
  // Users as created (crud.py:56-69)

  /** `schemas.UserCreate`; a `role` of None leaves the column default in force. */
  datatype UserCreate = UserCreate(
    username: string,
    email: string,
    fullName: Option<string>,
    password: string,
    role: Option<string>,
    companyId: int)

  /**
   * The user row `create_user` stores: the password only as a hash that verifies it,
   * `disabled` at its default, and the role given or else the column default "agent".
   */
  function NewUser(input: UserCreate): (u: User)
    ensures u.username == input.username && u.email == input.email
    ensures u.fullName == input.fullName && u.companyId == input.companyId
    ensures forall p :: VerifyPassword(p, u.hashedPassword) <==> p == input.password
    ensures !u.disabled
    ensures input.role.None? ==> u.role == "agent"
    ensures input.role.Some? ==> u.role == input.role.value
  {
    User(
      input.username, HashPassword(input.password), input.email, input.fullName,
      DefaultDisabled, if input.role.Some? then input.role.value else DefaultRole,
      input.companyId)
  }

  // ---------------------------------------------------------------------------
  // Supplied fields of the three update schemas, with setattr and getattr

  /** One supplied field of `schemas.CompanyUpdate`. */
  datatype CompanyField =
    | SetName(name: string)
    | SetAddress(address: Option<string>)
    | SetContactPerson(contactPerson: Option<string>)
    | SetPhoneNumber(phoneNumber: Option<string>)

  function CompanyColumnIndex(f: CompanyField): nat {
    match f
    case SetName(_) => 0
    case SetAddress(_) => 1
    case SetContactPerson(_) => 2
    case SetPhoneNumber(_) => 3
  }

  predicate SameCompanyColumn(f: CompanyField, g: CompanyField) {
    CompanyColumnIndex(f) == CompanyColumnIndex(g)
  }

  /** `setattr(company, column, value)`. */
  function WithCompanyField(c: Company, f: CompanyField): Company {
    match f
    case SetName(v) => c.(name := v)
    case SetAddress(v) => c.(address := v)
    case SetContactPerson(v) => c.(contactPerson := v)
    case SetPhoneNumber(v) => c.(phoneNumber := v)
  }

  /** `getattr(company, column)` for the column `f` names. */
  function CompanyColumn(c: Company, f: CompanyField): CompanyField {
    match f
    case SetName(_) => CompanyField.SetName(c.name)
    case SetAddress(_) => SetAddress(c.address)
    case SetContactPerson(_) => SetContactPerson(c.contactPerson)
    case SetPhoneNumber(_) => SetPhoneNumber(c.phoneNumber)
  }

  lemma CompanyFieldLaws()
    ensures FieldLaws(WithCompanyField, CompanyColumn, SameCompanyColumn)
  {
  }

  /** One supplied field of `schemas.UserUpdate` other than the password. */
  datatype UserField =
    | SetUsername(username: string)
    | SetEmail(email: string)
    | SetFullName(fullName: Option<string>)
    | SetDisabled(disabled: bool)
    | SetRole(role: string)
    | SetCompanyId(companyId: int)
    | SetHashedPassword(hashedPassword: PasswordHash)

  /**
   * `schemas.UserUpdate` as dumped with `exclude_unset`: the supplied columns, and the
   * supplied password (None when absent or null).
   */
  datatype UserUpdate = UserUpdate(fields: seq<UserField>, password: Option<string>)

  function UserColumnIndex(f: UserField): nat {
    match f
    case SetUsername(_) => 0
    case SetEmail(_) => 1
    case SetFullName(_) => 2
    case SetDisabled(_) => 3
    case SetRole(_) => 4
    case SetCompanyId(_) => 5
    case SetHashedPassword(_) => 6
  }

  predicate SameUserColumn(f: UserField, g: UserField) {
    UserColumnIndex(f) == UserColumnIndex(g)
  }

  /** `setattr(user, column, value)`. */
  function WithUserField(u: User, f: UserField): User {
    match f
    case SetUsername(v) => u.(username := v)
    case SetEmail(v) => u.(email := v)
    case SetFullName(v) => u.(fullName := v)
    case SetDisabled(v) => u.(disabled := v)
    case SetRole(v) => u.(role := v)
    case SetCompanyId(v) => u.(companyId := v)
    case SetHashedPassword(v) => u.(hashedPassword := v)
  }

  /** `getattr(user, column)` for the column `f` names. */
  function UserColumn(u: User, f: UserField): UserField {
    match f
    case SetUsername(_) => SetUsername(u.username)
    case SetEmail(_) => SetEmail(u.email)
    case SetFullName(_) => SetFullName(u.fullName)
    case SetDisabled(_) => SetDisabled(u.disabled)
    case SetRole(_) => SetRole(u.role)
    case SetCompanyId(_) => UserField.SetCompanyId(u.companyId)
    case SetHashedPassword(_) => SetHashedPassword(u.hashedPassword)
  }

  lemma UserFieldLaws()
    ensures FieldLaws(WithUserField, UserColumn, SameUserColumn)
  {
  }

  /**
   * The fields `update_user` writes (crud.py:74-76): the supplied columns, then, if the
   * supplied password is non-empty, its hash in place of it. An empty or null password
   * is set as a plain attribute that is not a column, so it stores nothing.
   */
  function UserUpdateFields(update: UserUpdate): seq<UserField>
  {
    if update.password.Some? && update.password.value != ""
    then update.fields + [SetHashedPassword(HashPassword(update.password.value))]
    else update.fields
  }

  /** One supplied field of `schemas.FarmerUpdate`. */
  datatype FarmerField =
    | SetName(name: string)
    | SetVillage(village: string)
    | SetMobileNumber(mobileNumber: string)
    | SetAadhaarNumber(aadhaarNumber: Option<string>)
    | SetFarmAreaAcres(farmAreaAcres: real)
    | SetCompanyId(companyId: int)

  function FarmerColumnIndex(f: FarmerField): nat {
    match f
    case SetName(_) => 0
    case SetVillage(_) => 1
    case SetMobileNumber(_) => 2
    case SetAadhaarNumber(_) => 3
    case SetFarmAreaAcres(_) => 4
    case SetCompanyId(_) => 5
  }

  predicate SameFarmerColumn(f: FarmerField, g: FarmerField) {
    FarmerColumnIndex(f) == FarmerColumnIndex(g)
  }

  /** `setattr(farmer, column, value)`. */
  function WithFarmerField(fm: Farmer, f: FarmerField): Farmer {
    match f
    case SetName(v) => fm.(name := v)
    case SetVillage(v) => fm.(village := v)
    case SetMobileNumber(v) => fm.(mobileNumber := v)
    case SetAadhaarNumber(v) => fm.(aadhaarNumber := v)
    case SetFarmAreaAcres(v) => fm.(farmAreaAcres := v)
    case SetCompanyId(v) => fm.(companyId := v)
  }

  /** `getattr(farmer, column)` for the column `f` names. */
  function FarmerColumn(fm: Farmer, f: FarmerField): FarmerField {
    match f
    case SetName(_) => FarmerField.SetName(fm.name)
    case SetVillage(_) => SetVillage(fm.village)
    case SetMobileNumber(_) => SetMobileNumber(fm.mobileNumber)
    case SetAadhaarNumber(_) => SetAadhaarNumber(fm.aadhaarNumber)
    case SetFarmAreaAcres(_) => SetFarmAreaAcres(fm.farmAreaAcres)
    case SetCompanyId(_) => FarmerField.SetCompanyId(fm.companyId)
  }

  lemma FarmerFieldLaws()
    ensures FieldLaws(WithFarmerField, FarmerColumn, SameFarmerColumn)
  {
  }

  // ---------------------------------------------------------------------------
  // The store

  class Store {
    var companies: seq<Row<Company>>
    var users: seq<Row<User>>
    var farmers: seq<Row<Farmer>>
    var seedDistributions: seq<Row<SeedDistribution>>
    var harvestEntries: seq<Row<HarvestEntry>>
    var receipts: seq<Row<Receipt>>

    function Snapshot(): Db
      reads this
    {
      Db(companies, users, farmers, seedDistributions, harvestEntries, receipts)
    }

    predicate Valid()
      reads this
    {
      DbOk(Snapshot())
    }

    /** An empty database, as `create_all` leaves it. */
    constructor ()
      ensures Valid() && Snapshot() == Db([], [], [], [], [], [])
    {
      companies, users, farmers := [], [], [];
      seedDistributions, harvestEntries, receipts := [], [], [];
    }

    // --- Companies (crud.py:18-41)

    /** `create_company`: inserts the row unless its name is taken. */
    method CreateCompany(company: Company) returns (r: Write<Row<Company>>)
      requires Valid()
      modifies this
      ensures Valid()
      ensures KeyFree(old(companies), CompanyName, company.name) ==>
        && r == Done(Row(NextRowId(old(companies)), company))
        && Snapshot() == old(Snapshot()).(companies := old(companies) + [r.row])
      ensures !KeyFree(old(companies), CompanyName, company.name) ==>
        r == IntegrityError && Snapshot() == old(Snapshot())
    {
      if KeyFree(companies, CompanyName, company.name) {
        var row := Row(NextRowId(companies), company);
        AppendKeepsIdsAscending(companies, company);
        AppendKeepsUnique(companies, row, CompanyName);
        companies := companies + [row];
        r := Done(row);
      } else {
        r := IntegrityError;
      }
    }

    /** `update_company`: sets only the supplied fields of an existing company. */
    method UpdateCompany(companyId: int, update: seq<CompanyField>) returns (r: Write<Row<Company>>)
      requires Valid()
      requires DistinctColumns(update, SameCompanyColumn)
      modifies this
      ensures Valid()
      ensures GetCompany(old(companies), companyId).None? ==>
        r == NoSuchRow && Snapshot() == old(Snapshot())
      ensures GetCompany(old(companies), companyId).Some? ==>
        var v := Patched(GetCompany(old(companies), companyId).value.value, update, WithCompanyField);
        if KeyFreeExcept(old(companies), CompanyName, v.name, companyId)
        then r == Done(Row(companyId, v))
          && Snapshot() == old(Snapshot()).(companies := Replace(old(companies), companyId, v))
        else r == IntegrityError && Snapshot() == old(Snapshot())
    {
      var i := IndexOf(companies, companyId);
      if i < 0 {
        return NoSuchRow;
      }
      var v := ApplyUpdate(companies[i].value, update, WithCompanyField);
      if KeyFreeExcept(companies, CompanyName, v.name, companyId) {
        ReplaceKeepsIdsAscending(companies, companyId, v);
        ReplaceKeepsUnique(companies, companyId, v, CompanyName);
        companies := Replace(companies, companyId, v);
        r := Done(Row(companyId, v));
      } else {
        r := IntegrityError;
      }
    }

    /**
     * `delete_company`: removes the row and returns it. Before the DELETE the ORM sets
     * `company_id` to NULL on every user and farmer of the company, since neither
     * relationship cascades deletes; the column is NOT NULL, so while any user or
     * farmer names the company the commit raises IntegrityError and nothing changes.
     */
    method DeleteCompany(companyId: int) returns (r: Write<Row<Company>>)
      requires Valid()
      modifies this
      ensures Valid()
      ensures GetCompany(old(companies), companyId).None? ==>
        r == NoSuchRow && Snapshot() == old(Snapshot())
      ensures GetCompany(old(companies), companyId).Some? ==>
        if !CompanyReferenced(old(Snapshot()), companyId)
        then r == Done(GetCompany(old(companies), companyId).value)
          && Snapshot() == old(Snapshot()).(companies := RemoveAt(old(companies), IndexOf(old(companies), companyId)))
        else r == IntegrityError && Snapshot() == old(Snapshot())
      ensures r.Done? ==> !CompanyReferenced(Snapshot(), companyId)
    {
      var i := IndexOf(companies, companyId);
      if i < 0 {
        return NoSuchRow;
      }
      if CompanyReferenced(Snapshot(), companyId) {
        return IntegrityError;
      }
      r := Done(companies[i]);
      RemoveAtKeepsIdsAscending(companies, i);
      RemoveAtKeepsUnique(companies, i, CompanyName);
      companies := RemoveAt(companies, i);
    }

    // --- Users (crud.py:56-89)

    /** `create_user`: inserts the user unless the username or the email is taken. */
    method CreateUser(input: UserCreate) returns (r: Write<Row<User>>)
      requires Valid()
      modifies this
      ensures Valid()
      ensures KeyFree(old(users), Username, input.username) && KeyFree(old(users), UserEmail, input.email) ==>
        && r == Done(Row(NextRowId(old(users)), NewUser(input)))
        && Snapshot() == old(Snapshot()).(users := old(users) + [r.row])
      ensures !(KeyFree(old(users), Username, input.username) && KeyFree(old(users), UserEmail, input.email)) ==>
        r == IntegrityError && Snapshot() == old(Snapshot())
    {
      if KeyFree(users, Username, input.username) && KeyFree(users, UserEmail, input.email) {
        var row := Row(NextRowId(users), NewUser(input));
        AppendKeepsIdsAscending(users, row.value);
        AppendKeepsUnique(users, row, Username);
        AppendKeepsUnique(users, row, UserEmail);
        users := users + [row];
        r := Done(row);
      } else {
        r := IntegrityError;
      }
    }

    /**
     * `update_user`: sets only the supplied fields of an existing user, with a supplied
     * non-empty password stored as its hash.
     */
    method UpdateUser(userId: int, update: UserUpdate) returns (r: Write<Row<User>>)
      requires Valid()
      requires DistinctColumns(update.fields, SameUserColumn)
      requires forall k :: 0 <= k < |update.fields| ==> !update.fields[k].SetHashedPassword?
      modifies this
      ensures Valid()
      ensures GetUser(old(users), userId).None? ==>
        r == NoSuchRow && Snapshot() == old(Snapshot())
      ensures GetUser(old(users), userId).Some? ==>
        var v := Patched(GetUser(old(users), userId).value.value, UserUpdateFields(update), WithUserField);
        if KeyFreeExcept(old(users), Username, v.username, userId)
          && KeyFreeExcept(old(users), UserEmail, v.email, userId)
        then r == Done(Row(userId, v))
          && Snapshot() == old(Snapshot()).(users := Replace(old(users), userId, v))
        else r == IntegrityError && Snapshot() == old(Snapshot())
    {
      var i := IndexOf(users, userId);
      if i < 0 {
        return NoSuchRow;
      }
      var fields := UserUpdateFields(update);
      var v := ApplyUpdate(users[i].value, fields, WithUserField);
      if KeyFreeExcept(users, Username, v.username, userId) && KeyFreeExcept(users, UserEmail, v.email, userId) {
        ReplaceKeepsIdsAscending(users, userId, v);
        ReplaceKeepsUnique(users, userId, v, Username);
        ReplaceKeepsUnique(users, userId, v, UserEmail);
        users := Replace(users, userId, v);
        r := Done(Row(userId, v));
      } else {
        r := IntegrityError;
      }
    }

    /**
     * `delete_user`: removes the row and returns it. No table references users, so
     * nothing can block the delete.
     */
    method DeleteUser(userId: int) returns (r: Option<Row<User>>)
      requires Valid()
      modifies this
      ensures Valid()
      ensures r == GetUser(old(users), userId)
      ensures r.None? ==> Snapshot() == old(Snapshot())
      ensures r.Some? ==>
        Snapshot() == old(Snapshot()).(users := RemoveAt(old(users), IndexOf(old(users), userId)))
    {
      var i := IndexOf(users, userId);
      if i < 0 {
        return None;
      }
      r := Some(users[i]);
      RemoveAtKeepsIdsAscending(users, i);
      RemoveAtKeepsUnique(users, i, Username);
      RemoveAtKeepsUnique(users, i, UserEmail);
      users := RemoveAt(users, i);
    }

    // --- Farmers (crud.py:107-130)

    /**
     * `create_farmer`: inserts the farmer unless its mobile number is taken by any
     * farmer of any company, or its Aadhaar number by any farmer.
     */
    method CreateFarmer(farmer: Farmer) returns (r: Write<Row<Farmer>>)
      requires Valid()
      modifies this
      ensures Valid()
      ensures FarmerInsertable(old(farmers), farmer) ==>
        && r == Done(Row(NextRowId(old(farmers)), farmer))
        && Snapshot() == old(Snapshot()).(farmers := old(farmers) + [r.row])
      ensures !FarmerInsertable(old(farmers), farmer) ==>
        r == IntegrityError && Snapshot() == old(Snapshot())
    {
      if KeyFree(farmers, FarmerMobile, farmer.mobileNumber)
        && (farmer.aadhaarNumber.Some? ==> KeyFree(farmers, FarmerAadhaar, farmer.aadhaarNumber))
      {
        var row := Row(NextRowId(farmers), farmer);
        AppendKeepsIdsAscending(farmers, farmer);
        AppendKeepsUnique(farmers, row, FarmerMobile);
        AppendKeepsUniqueWhenPresent(farmers, row, FarmerAadhaar);
        farmers := farmers + [row];
        r := Done(row);
      } else {
        r := IntegrityError;
      }
    }

    /** `update_farmer`: sets only the supplied fields of an existing farmer. */
    method UpdateFarmer(farmerId: int, update: seq<FarmerField>) returns (r: Write<Row<Farmer>>)
      requires Valid()
      requires DistinctColumns(update, SameFarmerColumn)
      modifies this
      ensures Valid()
      ensures GetFarmer(old(farmers), farmerId).None? ==>
        r == NoSuchRow && Snapshot() == old(Snapshot())
      ensures GetFarmer(old(farmers), farmerId).Some? ==>
        var v := Patched(GetFarmer(old(farmers), farmerId).value.value, update, WithFarmerField);
        if KeyFreeExcept(old(farmers), FarmerMobile, v.mobileNumber, farmerId)
          && (v.aadhaarNumber.Some? ==> KeyFreeExcept(old(farmers), FarmerAadhaar, v.aadhaarNumber, farmerId))
        then r == Done(Row(farmerId, v))
          && Snapshot() == old(Snapshot()).(farmers := Replace(old(farmers), farmerId, v))
        else r == IntegrityError && Snapshot() == old(Snapshot())
    {
      var i := IndexOf(farmers, farmerId);
      if i < 0 {
        return NoSuchRow;
      }
      var v := ApplyUpdate(farmers[i].value, update, WithFarmerField);
      if KeyFreeExcept(farmers, FarmerMobile, v.mobileNumber, farmerId)
        && (v.aadhaarNumber.Some? ==> KeyFreeExcept(farmers, FarmerAadhaar, v.aadhaarNumber, farmerId))
      {
        ReplaceKeepsIdsAscending(farmers, farmerId, v);
        ReplaceKeepsUnique(farmers, farmerId, v, FarmerMobile);
        ReplaceKeepsUniqueWhenPresent(farmers, farmerId, v, FarmerAadhaar);
        farmers := Replace(farmers, farmerId, v);
        r := Done(Row(farmerId, v));
      } else {
        r := IntegrityError;
      }
    }

    /**
     * `delete_farmer`: removes the row and returns it. Before the DELETE the ORM sets
     * `farmer_id` to NULL on the farmer's seed distributions, harvest entries and
     * receipts, since none of those relationships cascades deletes; the column is NOT
     * NULL, so while any such row names the farmer the commit raises IntegrityError
     * and nothing changes.
     */
    method DeleteFarmer(farmerId: int) returns (r: Write<Row<Farmer>>)
      requires Valid()
      modifies this
      ensures Valid()
      ensures GetFarmer(old(farmers), farmerId).None? ==>
        r == NoSuchRow && Snapshot() == old(Snapshot())
      ensures GetFarmer(old(farmers), farmerId).Some? ==>
        if !FarmerReferenced(old(Snapshot()), farmerId)
        then r == Done(GetFarmer(old(farmers), farmerId).value)
          && Snapshot() == old(Snapshot()).(farmers := RemoveAt(old(farmers), IndexOf(old(farmers), farmerId)))
        else r == IntegrityError && Snapshot() == old(Snapshot())
      ensures r.Done? ==> !FarmerReferenced(Snapshot(), farmerId)
    {
      var i := IndexOf(farmers, farmerId);
      if i < 0 {
        return NoSuchRow;
      }
      if FarmerReferenced(Snapshot(), farmerId) {
        return IntegrityError;
      }
      r := Done(farmers[i]);
      RemoveAtKeepsIdsAscending(farmers, i);
      RemoveAtKeepsUnique(farmers, i, FarmerMobile);
      RemoveAtKeepsUniqueWhenPresent(farmers, i, FarmerAadhaar);
      farmers := RemoveAt(farmers, i);
    }

    // --- Ledger rows (crud.py:141-206)

    /** `create_seed_distribution`: appends the row with its computed total. */
    method CreateSeedDistribution(input: SeedDistributionCreate) returns (r: Row<SeedDistribution>)
      requires Valid()
      modifies this
      ensures Valid()
      ensures r == Row(NextRowId(old(seedDistributions)), NewSeedDistribution(input))
      ensures Snapshot() == old(Snapshot()).(seedDistributions := old(seedDistributions) + [r])
    {
      r := Row(NextRowId(seedDistributions), NewSeedDistribution(input));
      AppendKeepsIdsAscending(seedDistributions, r.value);
      seedDistributions := seedDistributions + [r];
    }

    /** `create_harvest_entry`: appends the row with its computed weight and total. */
    method CreateHarvestEntry(input: HarvestEntryCreate) returns (r: Row<HarvestEntry>)
      requires Valid()
      modifies this
      ensures Valid()
      ensures r == Row(NextRowId(old(harvestEntries)), NewHarvestEntry(input))
      ensures Snapshot() == old(Snapshot()).(harvestEntries := old(harvestEntries) + [r])
    {
      r := Row(NextRowId(harvestEntries), NewHarvestEntry(input));
      AppendKeepsIdsAscending(harvestEntries, r.value);
      harvestEntries := harvestEntries + [r];
    }

    /**
     * `calculate_and_create_receipt`: for an existing farmer, appends a receipt that
     * sums the farmer's first 100 seed distributions and first 100 harvest entries;
     * for an unknown farmer, returns None and changes nothing.
     */
    method CalculateAndCreateReceipt(farmerId: int, receiptDate: Date) returns (r: Option<Row<Receipt>>)
      requires Valid()
      modifies this
      ensures Valid()
      ensures r.Some? <==> GetFarmer(old(farmers), farmerId).Some?
      ensures r.None? ==> Snapshot() == old(Snapshot())
      ensures r.Some? ==>
        && r.value == Row(NextRowId(old(receipts)),
                          ReceiptFor(old(seedDistributions), old(harvestEntries), farmerId, receiptDate))
        && Snapshot() == old(Snapshot()).(receipts := old(receipts) + [r.value])
    {
      var farmer := GetFarmer(farmers, farmerId);
      if farmer.None? {
        return None;
      }
      var row := Row(NextRowId(receipts), ReceiptFor(seedDistributions, harvestEntries, farmerId, receiptDate));
      AppendKeepsIdsAscending(receipts, row.value);
      receipts := receipts + [row];
      r := Some(row);
    }
  }

  /**
   * Generating a receipt twice with no entries added in between appends two rows
   * under successive keys with identical amounts.
   */
  method GenerateReceiptTwice(store: Store, farmerId: int, receiptDate: Date)
    returns (first: Option<Row<Receipt>>, second: Option<Row<Receipt>>)
    requires store.Valid()
    modifies store
    ensures store.Valid()
    ensures first.Some? <==> second.Some?
    ensures first.Some? ==>
      && first.value.value == ReceiptFor(old(store.seedDistributions), old(store.harvestEntries), farmerId, receiptDate)
      && first.value.value == second.value.value
      && second.value.id == first.value.id + 1
      && store.Snapshot() == old(store.Snapshot()).(receipts := old(store.receipts) + [first.value, second.value])
    ensures first.None? ==> second.None? && store.Snapshot() == old(store.Snapshot())
  {
    ghost var before := store.Snapshot();
    first := store.CalculateAndCreateReceipt(farmerId, receiptDate);
    ghost var middle := store.Snapshot();
    assert middle.farmers == before.farmers;
    assert middle.seedDistributions == before.seedDistributions && middle.harvestEntries == before.harvestEntries;
    second := store.CalculateAndCreateReceipt(farmerId, receiptDate);
    if first.Some? {
      assert middle.receipts == before.receipts + [first.value];
      assert store.receipts == middle.receipts + [second.value];
      assert before.receipts + [first.value] + [second.value] == before.receipts + [first.value, second.value];
    }
  }

  // ---------------------------------------------------------------------------
  // What the partial updates change

  /**
   * `update_company` reads back every supplied field and leaves every column that
   * was not supplied as it was.
   */
  lemma CompanyUpdateChangesOnlySupplied(c: Company, update: seq<CompanyField>)
    requires DistinctColumns(update, SameCompanyColumn)
    ensures forall k :: 0 <= k < |update| ==>
      CompanyColumn(Patched(c, update, WithCompanyField), update[k]) == update[k]
    ensures forall g :: (forall k :: 0 <= k < |update| ==> !SameCompanyColumn(update[k], g)) ==>
      CompanyColumn(Patched(c, update, WithCompanyField), g) == CompanyColumn(c, g)
  {
    CompanyFieldLaws();
    PatchedSetsOnlySupplied(c, update, WithCompanyField, CompanyColumn, SameCompanyColumn);
  }

  /** `update_farmer` reads back every supplied field and leaves the other columns as they were. */
  lemma FarmerUpdateChangesOnlySupplied(f: Farmer, update: seq<FarmerField>)
    requires DistinctColumns(update, SameFarmerColumn)
    ensures forall k :: 0 <= k < |update| ==>
      FarmerColumn(Patched(f, update, WithFarmerField), update[k]) == update[k]
    ensures forall g :: (forall k :: 0 <= k < |update| ==> !SameFarmerColumn(update[k], g)) ==>
      FarmerColumn(Patched(f, update, WithFarmerField), g) == FarmerColumn(f, g)
  {
    FarmerFieldLaws();
    PatchedSetsOnlySupplied(f, update, WithFarmerField, FarmerColumn, SameFarmerColumn);
  }

  /**
   * The fields `update_user` writes begin with the supplied ones, name distinct
   * columns, and end with the new hash exactly when a non-empty password is supplied.
   */
  lemma UserUpdateFieldsShape(update: UserUpdate)
    requires DistinctColumns(update.fields, SameUserColumn)
    requires forall k :: 0 <= k < |update.fields| ==> !update.fields[k].SetHashedPassword?
    ensures var fields := UserUpdateFields(update);
      && DistinctColumns(fields, SameUserColumn)
      && |update.fields| <= |fields|
      && (forall k :: 0 <= k < |update.fields| ==> fields[k] == update.fields[k])
      && (forall k :: |update.fields| <= k < |fields| ==> fields[k].SetHashedPassword?)
      && (update.password.Some? && update.password.value != "" ==>
            fields[|fields| - 1] == SetHashedPassword(HashPassword(update.password.value)))
  {
    var fields := UserUpdateFields(update);
    forall i, j | 0 <= i < |fields| && 0 <= j < |fields| && i != j
      ensures !SameUserColumn(fields[i], fields[j])
    {
      if i < |update.fields| && j < |update.fields| {
        assert fields[i] == update.fields[i] && fields[j] == update.fields[j];
      } else if i < |update.fields| {
        assert fields[i] == update.fields[i];
      } else {
        assert fields[j] == update.fields[j];
      }
    }
  }

  /**
   * `update_user` reads back every supplied column and leaves every other column,
   * the password hash aside, as it was.
   */
  lemma UserUpdateChangesOnlySupplied(u: User, update: UserUpdate)
    requires DistinctColumns(update.fields, SameUserColumn)
    requires forall k :: 0 <= k < |update.fields| ==> !update.fields[k].SetHashedPassword?
    ensures var v := Patched(u, UserUpdateFields(update), WithUserField);
      && (forall k :: 0 <= k < |update.fields| ==> UserColumn(v, update.fields[k]) == update.fields[k])
      && (forall g: UserField :: !g.SetHashedPassword? && (forall k :: 0 <= k < |update.fields| ==> !SameUserColumn(update.fields[k], g)) ==>
            UserColumn(v, g) == UserColumn(u, g))
  {
    UserFieldLaws();
    PatchedSetsOnlySupplied(u, update.fields, WithUserField, UserColumn, SameUserColumn);
    var fields := UserUpdateFields(update);
    if fields != update.fields {
      var w := Patched(u, update.fields, WithUserField);
      var h := fields[|fields| - 1];
      assert fields[..|fields| - 1] == update.fields;
      assert Patched(u, fields, WithUserField) == WithUserField(w, h);
      assert forall g: UserField :: !g.SetHashedPassword? ==> !SameUserColumn(h, g);
    }
  }

  /**
   * `update_user` stores a supplied non-empty password only as a hash that verifies
   * it, and otherwise keeps the old hash.
   */
  lemma UserUpdateStoresPasswordHash(u: User, update: UserUpdate)
    requires DistinctColumns(update.fields, SameUserColumn)
    requires forall k :: 0 <= k < |update.fields| ==> !update.fields[k].SetHashedPassword?
    ensures var v := Patched(u, UserUpdateFields(update), WithUserField);
      && (update.password.Some? && update.password.value != "" ==>
            forall p :: VerifyPassword(p, v.hashedPassword) <==> p == update.password.value)
      && (update.password.None? || update.password.value == "" ==> v.hashedPassword == u.hashedPassword)
  {
    var fields := UserUpdateFields(update);
    if update.password.None? || update.password.value == "" {
      UserFieldLaws();
      var probe := SetHashedPassword(u.hashedPassword);
      assert forall k :: 0 <= k < |fields| ==> !SameUserColumn(fields[k], probe);
      PatchedSetsOnlySupplied(u, fields, WithUserField, UserColumn, SameUserColumn);
      assert UserColumn(Patched(u, fields, WithUserField), probe) == UserColumn(u, probe);
    } else {
      assert fields[..|fields| - 1] == update.fields;
    }
  }
}
