/**
 * The read operations of backend/crud.py. Each is one SQL query over one table:
 * a lookup by primary key, a lookup by a key column (`.first()`), or a filtered page
 * (`.offset(skip).limit(limit).all()`, default limit 100).
 */
module Queries {
  import opened Results
  import opened Tables
  import opened Models

  /** The `limit` default of every listing function in crud.py. */
  const DefaultLimit: int := 100

  // Companies (crud.py:9-16)

  function GetCompany(companies: seq<Row<Company>>, companyId: int): (r: Option<Row<Company>>)
    ensures r.Some? ==> r.value in companies && r.value.id == companyId
    ensures r.None? <==> forall i :: 0 <= i < |companies| ==> companies[i].id != companyId
  {
    FindById(companies, companyId)
  }

  function GetCompanyByName(companies: seq<Row<Company>>, name: string): (r: Option<Row<Company>>)
    ensures r.Some? ==> r.value in companies && r.value.value.name == name
    ensures r.None? <==> forall i :: 0 <= i < |companies| ==> companies[i].value.name != name
  {
    FirstWithKey(companies, CompanyName, name)
  }

  function GetCompanies(companies: seq<Row<Company>>, skip: int, limit: int): (r: seq<Row<Company>>)
    ensures IsPageOf(companies, skip, limit, r)
  {
    Page(companies, skip, limit)
  }

  // Users (crud.py:44-54)

  function GetUser(users: seq<Row<User>>, userId: int): (r: Option<Row<User>>)
    ensures r.Some? ==> r.value in users && r.value.id == userId
    ensures r.None? <==> forall i :: 0 <= i < |users| ==> users[i].id != userId
  {
    FindById(users, userId)
  }

  function GetUserByUsername(users: seq<Row<User>>, username: string): (r: Option<Row<User>>)
    ensures r.Some? ==> r.value in users && r.value.value.username == username
    ensures r.None? <==> forall i :: 0 <= i < |users| ==> users[i].value.username != username
  {
    FirstWithKey(users, Username, username)
  }

  function GetUserByEmail(users: seq<Row<User>>, email: string): (r: Option<Row<User>>)
    ensures r.Some? ==> r.value in users && r.value.value.email == email
    ensures r.None? <==> forall i :: 0 <= i < |users| ==> users[i].value.email != email
  {
    FirstWithKey(users, UserEmail, email)
  }

  function GetUsers(users: seq<Row<User>>, skip: int, limit: int): (r: seq<Row<User>>)
    ensures IsPageOf(users, skip, limit, r)
  {
    Page(users, skip, limit)
  }

  // Farmers (crud.py:92-105)

  function GetFarmer(farmers: seq<Row<Farmer>>, farmerId: int): (r: Option<Row<Farmer>>)
    ensures r.Some? ==> r.value in farmers && r.value.id == farmerId
    ensures r.None? <==> forall i :: 0 <= i < |farmers| ==> farmers[i].id != farmerId
  {
    FindById(farmers, farmerId)
  }

  function GetFarmers(farmers: seq<Row<Farmer>>, skip: int, limit: int): (r: seq<Row<Farmer>>)
    ensures IsPageOf(farmers, skip, limit, r)
  {
    Page(farmers, skip, limit)
  }

  /**
   * One page of the farmers of one company: the slice `[skip, skip + limit)` of that
   * company's farmers in table order.
   */
  function GetFarmersByCompany(farmers: seq<Row<Farmer>>, companyId: int, skip: int, limit: int)
    : (r: seq<Row<Farmer>>)
    ensures forall i :: 0 <= i < |r| ==> r[i] in farmers && r[i].value.companyId == companyId
    ensures IsPageOf(WithKey(farmers, FarmerCompany, companyId), skip, limit, r)
    ensures 0 <= limit ==> |r| <= limit
  {
    Page(WithKey(farmers, FarmerCompany, companyId), skip, limit)
  }

  /** The lookup matches on mobile number AND company: the same number elsewhere is not seen. */
  function GetFarmerByMobileNumber(farmers: seq<Row<Farmer>>, mobileNumber: string, companyId: int)
    : (r: Option<Row<Farmer>>)
    ensures r.Some? ==> r.value in farmers
    ensures r.Some? ==> r.value.value.mobileNumber == mobileNumber && r.value.value.companyId == companyId
    ensures r.None? <==> forall i :: 0 <= i < |farmers| ==>
      farmers[i].value.mobileNumber != mobileNumber || farmers[i].value.companyId != companyId
  {
    FirstWithKey(farmers, FarmerMobileInCompany, (mobileNumber, companyId))
  }

  // Transaction rows of one farmer (crud.py:133-139, 153-159, 175-181)

  function GetSeedDistribution(rows: seq<Row<SeedDistribution>>, id: int): (r: Option<Row<SeedDistribution>>)
    ensures r.Some? ==> r.value in rows && r.value.id == id
    ensures r.None? <==> forall i :: 0 <= i < |rows| ==> rows[i].id != id
  {
    FindById(rows, id)
  }

  /**
   * One page of the seed distributions of one farmer: the slice `[skip, skip + limit)`
   * of that farmer's rows in table order.
   */
  function GetSeedDistributionsByFarmer(rows: seq<Row<SeedDistribution>>, farmerId: int, skip: int, limit: int)
    : (r: seq<Row<SeedDistribution>>)
    ensures forall i :: 0 <= i < |r| ==> r[i] in rows && r[i].value.farmerId == farmerId
    ensures IsPageOf(WithKey(rows, SeedFarmer, farmerId), skip, limit, r)
    ensures 0 <= limit ==> |r| <= limit
  {
    Page(WithKey(rows, SeedFarmer, farmerId), skip, limit)
  }

  function GetHarvestEntry(rows: seq<Row<HarvestEntry>>, id: int): (r: Option<Row<HarvestEntry>>)
    ensures r.Some? ==> r.value in rows && r.value.id == id
    ensures r.None? <==> forall i :: 0 <= i < |rows| ==> rows[i].id != id
  {
    FindById(rows, id)
  }

  /**
   * One page of the harvest entries of one farmer: the slice `[skip, skip + limit)` of
   * that farmer's rows in table order.
   */
  function GetHarvestEntriesByFarmer(rows: seq<Row<HarvestEntry>>, farmerId: int, skip: int, limit: int)
    : (r: seq<Row<HarvestEntry>>)
    ensures forall i :: 0 <= i < |r| ==> r[i] in rows && r[i].value.farmerId == farmerId
    ensures IsPageOf(WithKey(rows, HarvestFarmer, farmerId), skip, limit, r)
    ensures 0 <= limit ==> |r| <= limit
  {
    Page(WithKey(rows, HarvestFarmer, farmerId), skip, limit)
  }

  function GetReceipt(rows: seq<Row<Receipt>>, id: int): (r: Option<Row<Receipt>>)
    ensures r.Some? ==> r.value in rows && r.value.id == id
    ensures r.None? <==> forall i :: 0 <= i < |rows| ==> rows[i].id != id
  {
    FindById(rows, id)
  }

  /**
   * One page of the receipts of one farmer: the slice `[skip, skip + limit)` of that
   * farmer's receipts in table order.
   */
  function GetReceiptsByFarmer(rows: seq<Row<Receipt>>, farmerId: int, skip: int, limit: int)
    : (r: seq<Row<Receipt>>)
    ensures forall i :: 0 <= i < |r| ==> r[i] in rows && r[i].value.farmerId == farmerId
    ensures IsPageOf(WithKey(rows, ReceiptFarmer, farmerId), skip, limit, r)
    ensures 0 <= limit ==> |r| <= limit
  {
    Page(WithKey(rows, ReceiptFarmer, farmerId), skip, limit)
  }
}
