/**
 * The request handlers of backend/main.py. Each handler first resolves the caller
 * through one of the role gates, then makes its own checks in a fixed order (a
 * missing row before a tenancy refusal), and only then reads or writes the store.
 * A handler that writes is a method on the store; a handler that only reads is a
 * function of the database state.
 */
module Api {
  import opened Results
  import opened Tables
  import opened Models
  import opened Queries
  import opened Ledger
  import opened Crud
  import opened Auth

  /** What a request carries besides its body: the bearer token, with the configuration and clock it is read under. */
  datatype Request = Request(token: Jwt, settings: Settings, now: int)

  /** The caller as the admin gate resolves it. */
  function AdminCaller(db: Db, req: Request): Outcome<Row<User>> {
    CurrentAdminUser(db.users, req.token, req.settings, req.now)
  }

  /** The caller as the agent gate resolves it. */
  function AgentCaller(db: Db, req: Request): Outcome<Row<User>> {
    CurrentAgentUser(db.users, req.token, req.settings, req.now)
  }

  // ---------------------------------------------------------------------------
  // Login and the current user (main.py:22-48)

  /**
   * `login_for_access_token`: for a name and password that authenticate, a token
   * whose subject is the name and whose lifetime is the configured number of minutes.
   * The `disabled` flag is not consulted here.
   */
  function LoginForAccessToken(users: seq<Row<User>>, username: string, password: string, settings: Settings, now: int)
    : (r: Outcome<Jwt>)
    ensures r.Err? <==> AuthenticateUser(users, username, password).None?
    ensures r.Err? ==> r.error == Unauthenticated
    ensures r.Ok? ==> r.value.Signed? && r.value.claims.Keys == {"sub", "exp"}
    ensures r.Ok? ==> r.value.claims["sub"] == Text(username)
    ensures r.Ok? ==> r.value.claims["exp"] == NumericDate(now + 60 * settings.accessTokenExpireMinutes)
  {
    var user := AuthenticateUser(users, username, password);
    if user.None? then Err(Unauthenticated)
    else
      Ok(CreateAccessToken(map["sub" := Text(user.value.value.username)],
                           Some(60 * settings.accessTokenExpireMinutes), now, settings))
  }

  /**
   * The token login hands out resolves, through `get_current_user`, to the user who
   * logged in, up to and including its expiry second, and to nobody afterwards.
   */
  lemma LoginTokenResolvesUntilExpiry(
    users: seq<Row<User>>, username: string, password: string, settings: Settings, issued: int, now: int)
    requires LoginForAccessToken(users, username, password, settings, issued).Ok?
    ensures var token := LoginForAccessToken(users, username, password, settings, issued).value;
      CurrentUser(users, token, settings, now)
        == if now <= issued + 60 * settings.accessTokenExpireMinutes
           then Ok(AuthenticateUser(users, username, password).value)
           else Err(Unauthenticated)
  {
    var token := LoginForAccessToken(users, username, password, settings, issued).value;
    var expiresDelta := Some(60 * settings.accessTokenExpireMinutes);
    TokenNamesSubjectUntilExpiry(map["sub" := Text(username)], expiresDelta, issued, settings, now);
    assert TokenLifetime(expiresDelta, settings) == 60 * settings.accessTokenExpireMinutes;
  }

  /**
   * A disabled user can still log in, but every request made with that token
   * ends as Inactive.
   */
  lemma DisabledUserLogsInButIsInactive(
    users: seq<Row<User>>, username: string, password: string, settings: Settings, issued: int, now: int)
    requires AuthenticateUser(users, username, password).Some?
    requires AuthenticateUser(users, username, password).value.value.disabled
    requires now <= issued + 60 * settings.accessTokenExpireMinutes
    ensures LoginForAccessToken(users, username, password, settings, issued).Ok?
    ensures var token := LoginForAccessToken(users, username, password, settings, issued).value;
      && CurrentAgentUser(users, token, settings, now) == Err(Inactive)
      && CurrentAdminUser(users, token, settings, now) == Err(Inactive)
  {
    LoginTokenResolvesUntilExpiry(users, username, password, settings, issued, now);
    var token := LoginForAccessToken(users, username, password, settings, issued).value;
    DisabledUserIsInactive(users, token, settings, now);
  }

  /** `read_users_me`: the active caller's own row. */
  function ReadUsersMe(db: Db, req: Request): (r: Outcome<Row<User>>)
    ensures r.Ok? <==> CurrentUser(db.users, req.token, req.settings, req.now).Ok?
                       && !CurrentUser(db.users, req.token, req.settings, req.now).value.value.disabled
    ensures r.Ok? ==> r.value in db.users && !r.value.value.disabled
    ensures r.Ok? ==> TokenSubject(req.token, req.settings, req.now) == Some(r.value.value.username)
    ensures r.Err? ==> (r.error == Inactive <==> CurrentUser(db.users, req.token, req.settings, req.now).Ok?)
    ensures r.Err? ==> r.error == Unauthenticated || r.error == Inactive
  {
    CurrentActiveUser(db.users, req.token, req.settings, req.now)
  }

  // ---------------------------------------------------------------------------
  // Companies (main.py:51-76)

  /** The checks of `create_company`: an admin caller, then a name no company holds. */
  function CreateCompanyCheck(db: Db, req: Request, company: Company): (r: Outcome<Row<User>>)
    ensures AdminCaller(db, req).Err? ==> r == AdminCaller(db, req)
    ensures AdminCaller(db, req).Ok? ==> (r.Ok? <==> KeyFree(db.companies, CompanyName, company.name))
    ensures AdminCaller(db, req).Ok? && r.Err? ==> r.error == Conflict
  {
    var caller :- AdminCaller(db, req);
    if GetCompanyByName(db.companies, company.name).Some? then Err(Conflict) else Ok(caller)
  }

  /**
   * `create_company`: a refused request changes nothing; an accepted one adds exactly
   * the one company, under the next key.
   */
  method CreateCompany(store: Store, req: Request, company: Company) returns (r: Outcome<Row<Company>>)
    requires store.Valid()
    modifies store
    ensures store.Valid()
    ensures var check := CreateCompanyCheck(old(store.Snapshot()), req, company);
      check.Err? ==> r == Err(check.error) && store.Snapshot() == old(store.Snapshot())
    ensures var check := CreateCompanyCheck(old(store.Snapshot()), req, company);
      check.Ok? ==>
        && r == Ok(Row(NextRowId(old(store.companies)), company))
        && store.Snapshot() == old(store.Snapshot()).(companies := old(store.companies) + [r.value])
  {
    var check := CreateCompanyCheck(store.Snapshot(), req, company);
    if check.Err? {
      return Err(check.error);
    }
    var written := store.CreateCompany(company);
    r := if written.Done? then Ok(written.row) else Err(Internal);
  }

  /** `read_companies`: for an admin, one page of all companies. */
  function ReadCompanies(db: Db, req: Request, skip: int, limit: int): (r: Outcome<seq<Row<Company>>>)
    ensures r.Ok? <==> AdminCaller(db, req).Ok?
    ensures r.Err? ==> r.error == AdminCaller(db, req).error
    ensures r.Ok? ==> IsPageOf(db.companies, skip, limit, r.value)
    ensures r.Ok? ==> forall i :: 0 <= i < |r.value| ==> r.value[i] in db.companies
    ensures r.Ok? && 0 <= limit ==> |r.value| <= limit
  {
    var _ :- AdminCaller(db, req);
    Ok(GetCompanies(db.companies, skip, limit))
  }

  // ---------------------------------------------------------------------------
  // Users (main.py:79-99)

  /**
   * The checks of `create_user`, in order: an admin caller, a free username, a free
   * email (both Conflict), then an existing company (NotFound).
   */
  function CreateUserCheck(db: Db, req: Request, input: UserCreate): (r: Outcome<Row<User>>)
    ensures AdminCaller(db, req).Err? ==> r == AdminCaller(db, req)
    ensures AdminCaller(db, req).Ok? ==>
      (r.Ok? <==> KeyFree(db.users, Username, input.username) && KeyFree(db.users, UserEmail, input.email)
                  && GetCompany(db.companies, input.companyId).Some?)
    ensures AdminCaller(db, req).Ok? && !KeyFree(db.users, Username, input.username) ==> r == Err(Conflict)
    ensures AdminCaller(db, req).Ok? && !KeyFree(db.users, UserEmail, input.email) ==> r == Err(Conflict)
    ensures AdminCaller(db, req).Ok? && GetCompany(db.companies, input.companyId).None?
      && KeyFree(db.users, Username, input.username) && KeyFree(db.users, UserEmail, input.email)
      ==> r == Err(NotFound)
  {
    var caller :- AdminCaller(db, req);
    if GetUserByUsername(db.users, input.username).Some? then Err(Conflict)
    else if GetUserByEmail(db.users, input.email).Some? then Err(Conflict)
    else if GetCompany(db.companies, input.companyId).None? then Err(NotFound)
    else Ok(caller)
  }

  /**
   * `create_user`: a refused request changes nothing; an accepted one adds exactly
   * the one user, as `NewUser` builds it.
   */
  method CreateUser(store: Store, req: Request, input: UserCreate) returns (r: Outcome<Row<User>>)
    requires store.Valid()
    modifies store
    ensures store.Valid()
    ensures var check := CreateUserCheck(old(store.Snapshot()), req, input);
      check.Err? ==> r == Err(check.error) && store.Snapshot() == old(store.Snapshot())
    ensures var check := CreateUserCheck(old(store.Snapshot()), req, input);
      check.Ok? ==>
        && r == Ok(Row(NextRowId(old(store.users)), NewUser(input)))
        && store.Snapshot() == old(store.Snapshot()).(users := old(store.users) + [r.value])
  {
    var check := CreateUserCheck(store.Snapshot(), req, input);
    if check.Err? {
      return Err(check.error);
    }
    var written := store.CreateUser(input);
    r := if written.Done? then Ok(written.row) else Err(Internal);
  }

  // ---------------------------------------------------------------------------
  // Farmers (main.py:102-137)

  /**
   * The checks of `create_farmer`, in order: an agent-gate caller; a caller who is
   * not an admin only for its own company (Forbidden); then no farmer of that
   * company with that mobile number (Conflict).
   */
  function CreateFarmerCheck(db: Db, req: Request, farmer: Farmer): (r: Outcome<Row<User>>)
    ensures AgentCaller(db, req).Err? ==> r == AgentCaller(db, req)
    ensures AgentCaller(db, req).Ok? ==>
      var caller := AgentCaller(db, req).value.value;
      && (ParseRole(caller.role) != Some(Admin) && farmer.companyId != caller.companyId ==> r == Err(Forbidden))
      && (r.Ok? <==> (ParseRole(caller.role) == Some(Admin) || farmer.companyId == caller.companyId)
                     && GetFarmerByMobileNumber(db.farmers, farmer.mobileNumber, farmer.companyId).None?)
      && (((ParseRole(caller.role) == Some(Admin) || farmer.companyId == caller.companyId)
           && GetFarmerByMobileNumber(db.farmers, farmer.mobileNumber, farmer.companyId).Some?)
          ==> r == Err(Conflict))
      && (r.Err? ==> r.error == Forbidden || r.error == Conflict)
  {
    var caller :- AgentCaller(db, req);
    if caller.value.role in ["agent", "company_owner"] && farmer.companyId != caller.value.companyId then
      Err(Forbidden)
    else if GetFarmerByMobileNumber(db.farmers, farmer.mobileNumber, farmer.companyId).Some? then
      Err(Conflict)
    else
      Ok(caller)
  }

  /**
   * `create_farmer`: a refused request changes nothing. An accepted one adds the
   * farmer, unless the database's UNIQUE constraints refuse it, which ends as an
   * internal error with nothing changed.
   */
  method CreateFarmer(store: Store, req: Request, farmer: Farmer) returns (r: Outcome<Row<Farmer>>)
    requires store.Valid()
    modifies store
    ensures store.Valid()
    ensures var check := CreateFarmerCheck(old(store.Snapshot()), req, farmer);
      check.Err? ==> r == Err(check.error) && store.Snapshot() == old(store.Snapshot())
    ensures var check := CreateFarmerCheck(old(store.Snapshot()), req, farmer);
      check.Ok? && FarmerInsertable(old(store.farmers), farmer) ==>
        && r == Ok(Row(NextRowId(old(store.farmers)), farmer))
        && store.Snapshot() == old(store.Snapshot()).(farmers := old(store.farmers) + [r.value])
    ensures var check := CreateFarmerCheck(old(store.Snapshot()), req, farmer);
      check.Ok? && !FarmerInsertable(old(store.farmers), farmer) ==>
        r == Err(Internal) && store.Snapshot() == old(store.Snapshot())
  {
    var check := CreateFarmerCheck(store.Snapshot(), req, farmer);
    if check.Err? {
      return Err(check.error);
    }
    var written := store.CreateFarmer(farmer);
    r := if written.Done? then Ok(written.row) else Err(Internal);
  }

  /** A caller who is not an admin cannot register a farmer for another company. */
  lemma CrossCompanyFarmerForbidden(db: Db, req: Request, farmer: Farmer)
    requires AgentCaller(db, req).Ok?
    requires AgentCaller(db, req).value.value.role != "admin"
    requires farmer.companyId != AgentCaller(db, req).value.value.companyId
    ensures CreateFarmerCheck(db, req, farmer) == Err(Forbidden)
  {
  }

  /**
   * The mobile-number check is per company but the column is UNIQUE across all
   * farmers: a number held by a farmer of another company passes the check, and the
   * insert is then refused by the database.
   */
  lemma MobileReuseAcrossCompaniesPassesCheckButNotInsert(db: Db, req: Request, farmer: Farmer, i: int)
    requires FarmersOk(db.farmers)
    requires 0 <= i < |db.farmers|
    requires db.farmers[i].value.mobileNumber == farmer.mobileNumber
    requires db.farmers[i].value.companyId != farmer.companyId
    requires AgentCaller(db, req).Ok?
    requires AgentCaller(db, req).value.value.role == "admin"
      || AgentCaller(db, req).value.value.companyId == farmer.companyId
    ensures CreateFarmerCheck(db, req, farmer).Ok?
    ensures !FarmerInsertable(db.farmers, farmer)
  {
    forall j | 0 <= j < |db.farmers|
      ensures !(db.farmers[j].value.mobileNumber == farmer.mobileNumber && db.farmers[j].value.companyId == farmer.companyId)
    {
      if db.farmers[j].value.mobileNumber == farmer.mobileNumber {
        UniqueKeyHolder(db.farmers, FarmerMobile, i, j);
      }
    }
    assert FarmerMobile(db.farmers[i].value) == farmer.mobileNumber;
  }

  /**
   * `read_farmers`: an admin gets a page of all farmers; any other caller a page of
   * the farmers of its own company only.
   */
  function ReadFarmers(db: Db, req: Request, skip: int, limit: int): (r: Outcome<seq<Row<Farmer>>>)
    ensures r.Ok? <==> AgentCaller(db, req).Ok?
    ensures r.Err? ==> r.error == AgentCaller(db, req).error
    ensures r.Ok? && ParseRole(AgentCaller(db, req).value.value.role) == Some(Admin) ==>
      IsPageOf(db.farmers, skip, limit, r.value)
    ensures r.Ok? && ParseRole(AgentCaller(db, req).value.value.role) != Some(Admin) ==>
      IsPageOf(WithKey(db.farmers, FarmerCompany, AgentCaller(db, req).value.value.companyId), skip, limit, r.value)
    ensures r.Ok? && ParseRole(AgentCaller(db, req).value.value.role) != Some(Admin) ==>
      forall i :: 0 <= i < |r.value| ==>
        r.value[i] in db.farmers && r.value[i].value.companyId == AgentCaller(db, req).value.value.companyId
    ensures r.Ok? && 0 <= limit ==> |r.value| <= limit
  {
    var caller :- AgentCaller(db, req);
    if caller.value.role == "admin" then Ok(GetFarmers(db.farmers, skip, limit))
    else Ok(GetFarmersByCompany(db.farmers, caller.value.companyId, skip, limit))
  }

  /**
   * A caller who is not an admin and asks for a first page at least as long as its
   * company's farmer list gets exactly that list, in table order.
   */
  lemma ReadFarmersGivesWholeCompany(db: Db, req: Request, limit: int)
    requires AgentCaller(db, req).Ok? && AgentCaller(db, req).value.value.role != "admin"
    requires |WithKey(db.farmers, FarmerCompany, AgentCaller(db, req).value.value.companyId)| <= limit
    ensures ReadFarmers(db, req, 0, limit)
         == Ok(WithKey(db.farmers, FarmerCompany, AgentCaller(db, req).value.value.companyId))
  {
    FirstPageOfShortTable(WithKey(db.farmers, FarmerCompany, AgentCaller(db, req).value.value.companyId), limit);
  }

  // ---------------------------------------------------------------------------
  // Ledger entries and receipts (main.py:140-230)

  /**
   * The checks shared by the ledger handlers, in order: an agent-gate caller; a
   * farmer with that id (NotFound); then, for a caller who is not an admin, a farmer
   * of the caller's company (Forbidden).
   */
  function FarmerAccess(db: Db, req: Request, farmerId: int): (r: Outcome<Row<Farmer>>)
    ensures AgentCaller(db, req).Err? ==> r == Err(AgentCaller(db, req).error)
    ensures AgentCaller(db, req).Ok? && GetFarmer(db.farmers, farmerId).None? ==> r == Err(NotFound)
    ensures AgentCaller(db, req).Ok? && GetFarmer(db.farmers, farmerId).Some? ==>
      var caller := AgentCaller(db, req).value.value;
      && (r.Ok? <==> ParseRole(caller.role) == Some(Admin)
                     || GetFarmer(db.farmers, farmerId).value.value.companyId == caller.companyId)
      && (r.Err? ==> r.error == Forbidden)
    ensures r.Ok? ==> r.value in db.farmers && r.value.id == farmerId
  {
    var caller :- AgentCaller(db, req);
    var farmer := GetFarmer(db.farmers, farmerId);
    if farmer.None? then Err(NotFound)
    else if caller.value.role != "admin" && farmer.value.value.companyId != caller.value.companyId then Err(Forbidden)
    else Ok(farmer.value)
  }

  /**
   * `create_seed_distribution`: a refused request changes nothing; an accepted one
   * appends exactly the entry `NewSeedDistribution` computes.
   */
  method CreateSeedDistribution(store: Store, req: Request, input: SeedDistributionCreate)
    returns (r: Outcome<Row<SeedDistribution>>)
    requires store.Valid()
    modifies store
    ensures store.Valid()
    ensures var access := FarmerAccess(old(store.Snapshot()), req, input.farmerId);
      access.Err? ==> r == Err(access.error) && store.Snapshot() == old(store.Snapshot())
    ensures var access := FarmerAccess(old(store.Snapshot()), req, input.farmerId);
      access.Ok? ==>
        && r == Ok(Row(NextRowId(old(store.seedDistributions)), NewSeedDistribution(input)))
        && store.Snapshot() == old(store.Snapshot()).(seedDistributions := old(store.seedDistributions) + [r.value])
  {
    var access := FarmerAccess(store.Snapshot(), req, input.farmerId);
    if access.Err? {
      return Err(access.error);
    }
    var row := store.CreateSeedDistribution(input);
    r := Ok(row);
  }

  /**
   * `create_harvest_entry`: a refused request changes nothing; an accepted one
   * appends exactly the entry `NewHarvestEntry` computes.
   */
  method CreateHarvestEntry(store: Store, req: Request, input: HarvestEntryCreate)
    returns (r: Outcome<Row<HarvestEntry>>)
    requires store.Valid()
    modifies store
    ensures store.Valid()
    ensures var access := FarmerAccess(old(store.Snapshot()), req, input.farmerId);
      access.Err? ==> r == Err(access.error) && store.Snapshot() == old(store.Snapshot())
    ensures var access := FarmerAccess(old(store.Snapshot()), req, input.farmerId);
      access.Ok? ==>
        && r == Ok(Row(NextRowId(old(store.harvestEntries)), NewHarvestEntry(input)))
        && store.Snapshot() == old(store.Snapshot()).(harvestEntries := old(store.harvestEntries) + [r.value])
  {
    var access := FarmerAccess(store.Snapshot(), req, input.farmerId);
    if access.Err? {
      return Err(access.error);
    }
    var row := store.CreateHarvestEntry(input);
    r := Ok(row);
  }

  /**
   * `generate_farmer_receipt`: a refused request changes nothing; an accepted one
   * appends exactly the receipt `ReceiptFor` computes from the entries as they were.
   */
  method GenerateFarmerReceipt(store: Store, req: Request, farmerId: int, receiptDate: Date)
    returns (r: Outcome<Row<Receipt>>)
    requires store.Valid()
    modifies store
    ensures store.Valid()
    ensures var access := FarmerAccess(old(store.Snapshot()), req, farmerId);
      access.Err? ==> r == Err(access.error) && store.Snapshot() == old(store.Snapshot())
    ensures var access := FarmerAccess(old(store.Snapshot()), req, farmerId);
      access.Ok? ==>
        && r == Ok(Row(NextRowId(old(store.receipts)),
                       ReceiptFor(old(store.seedDistributions), old(store.harvestEntries), farmerId, receiptDate)))
        && store.Snapshot() == old(store.Snapshot()).(receipts := old(store.receipts) + [r.value])
  {
    var access := FarmerAccess(store.Snapshot(), req, farmerId);
    if access.Err? {
      return Err(access.error);
    }
    var receipt := store.CalculateAndCreateReceipt(farmerId, receiptDate);
    r := if receipt.Some? then Ok(receipt.value) else Err(Internal);
  }

  /**
   * `get_farmer_receipts`: after the same checks as the other ledger handlers, a page
   * of the receipts of that farmer and of no other.
   */
  function GetFarmerReceipts(db: Db, req: Request, farmerId: int, skip: int, limit: int)
    : (r: Outcome<seq<Row<Receipt>>>)
    ensures r.Ok? <==> FarmerAccess(db, req, farmerId).Ok?
    ensures r.Err? ==> r.error == FarmerAccess(db, req, farmerId).error
    ensures r.Ok? ==> forall i :: 0 <= i < |r.value| ==>
      r.value[i] in db.receipts && r.value[i].value.farmerId == farmerId
    ensures r.Ok? ==> IsPageOf(WithKey(db.receipts, ReceiptFarmer, farmerId), skip, limit, r.value)
    ensures r.Ok? && 0 <= limit ==> |r.value| <= limit
  {
    var _ :- FarmerAccess(db, req, farmerId);
    Ok(GetReceiptsByFarmer(db.receipts, farmerId, skip, limit))
  }
}
