/**
 * The six tables of backend/models.py: their columns, the column defaults, and the
 * UNIQUE constraints the database enforces. Foreign keys are plain id columns: the
 * SQLite engine the repository configures does not enforce FOREIGN KEY constraints.
 */
module Models {
  import opened Results
  import opened Tables
  import opened Passwords

  datatype Date = Date(year: int, month: int, day: int)

  /** models.py:10-20. */
  datatype Company = Company(
    name: string,
    address: Option<string>,
    contactPerson: Option<string>,
    phoneNumber: Option<string>)

  /** models.py:22-34; `role` is a free string column, not an enumeration. */
  datatype User = User(
    username: string,
    hashedPassword: PasswordHash,
    email: string,
    fullName: Option<string>,
    disabled: bool,
    role: string,
    companyId: int)

  /** models.py:36-50. */
  datatype Farmer = Farmer(
    name: string,
    village: string,
    mobileNumber: string,
    aadhaarNumber: Option<string>,
    farmAreaAcres: real,
    companyId: int)

  /** models.py:52-62. */
  datatype SeedDistribution = SeedDistribution(
    farmerId: int,
    date: Date,
    numBagsGiven: int,
    ratePerBag: real,
    totalAmount: real)

  /** models.py:64-76. */
  datatype HarvestEntry = HarvestEntry(
    farmerId: int,
    date: Date,
    numBagsReturned: int,
    netWeightPerBagKg: real,
    totalWeightQuintals: real,
    ratePerQuintal: real,
    totalAmount: real)

  /** models.py:78-88. */
  datatype Receipt = Receipt(
    farmerId: int,
    date: Date,
    seedCostDebit: real,
    riceSaleCredit: real,
    finalBalance: real)

  /** Column defaults of `users` (models.py:30-31). */
  const DefaultDisabled: bool := false
  const DefaultRole: string := "agent"

  // Key columns, as functions so that the generic table queries can use them.

  function CompanyName(c: Company): string { c.name }
  function Username(u: User): string { u.username }
  function UserEmail(u: User): string { u.email }
  function UserCompany(u: User): int { u.companyId }
  function FarmerMobile(f: Farmer): string { f.mobileNumber }
  function FarmerAadhaar(f: Farmer): Option<string> { f.aadhaarNumber }
  function FarmerCompany(f: Farmer): int { f.companyId }
  function FarmerMobileInCompany(f: Farmer): (string, int) { (f.mobileNumber, f.companyId) }
  function SeedFarmer(s: SeedDistribution): int { s.farmerId }
  function HarvestFarmer(h: HarvestEntry): int { h.farmerId }
  function ReceiptFarmer(r: Receipt): int { r.farmerId }
  function SeedAmount(s: SeedDistribution): real { s.totalAmount }
  function HarvestAmount(h: HarvestEntry): real { h.totalAmount }

  // Table constraints the database enforces.

  /** `companies.name` is UNIQUE (models.py:14). */
  predicate CompaniesOk(rows: seq<Row<Company>>) {
    IdsAscending(rows) && UniqueKey(rows, CompanyName)
  }

  /** `users.username` and `users.email` are UNIQUE (models.py:26, 28). */
  predicate UsersOk(rows: seq<Row<User>>) {
    IdsAscending(rows) && UniqueKey(rows, Username) && UniqueKey(rows, UserEmail)
  }

  /**
   * `farmers.mobile_number` is UNIQUE across the whole table, not per company
   * (models.py:42); a present `aadhaar_number` is UNIQUE (models.py:43).
   */
  predicate FarmersOk(rows: seq<Row<Farmer>>) {
    IdsAscending(rows) && UniqueKey(rows, FarmerMobile) && UniqueWhenPresent(rows, FarmerAadhaar)
  }

  /** May a farmer with these columns be inserted without violating a UNIQUE constraint? */
  predicate FarmerInsertable(rows: seq<Row<Farmer>>, f: Farmer) {
    && KeyFree(rows, FarmerMobile, f.mobileNumber)
    && (f.aadhaarNumber.Some? ==> KeyFree(rows, FarmerAadhaar, f.aadhaarNumber))
  }
}
