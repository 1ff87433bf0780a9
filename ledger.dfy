/**
 * The ledger arithmetic of backend/crud.py: the totals stored with each seed
 * distribution and harvest entry, and the amounts of a receipt. Money and weight are
 * `real`, which abstracts the source's Python floats; rounding is not modelled.
 */
module Ledger {
  import opened Tables
  import opened Models
  import opened Queries

  /** `schemas.SeedDistributionCreate`: the columns a client supplies. */
  datatype SeedDistributionCreate = SeedDistributionCreate(
    farmerId: int,
    date: Date,
    numBagsGiven: int,
    ratePerBag: real)

  /** `schemas.HarvestEntryCreate`: the columns a client supplies. */
  datatype HarvestEntryCreate = HarvestEntryCreate(
    farmerId: int,
    date: Date,
    numBagsReturned: int,
    netWeightPerBagKg: real,
    ratePerQuintal: real)

  /** The seed distribution row `create_seed_distribution` stores (crud.py:142-146). */
  function NewSeedDistribution(input: SeedDistributionCreate): (s: SeedDistribution)
    ensures s.farmerId == input.farmerId && s.date == input.date
    ensures s.numBagsGiven == input.numBagsGiven && s.ratePerBag == input.ratePerBag
    ensures s.totalAmount == input.numBagsGiven as real * input.ratePerBag
  {
    SeedDistribution(
      input.farmerId, input.date, input.numBagsGiven, input.ratePerBag,
      input.numBagsGiven as real * input.ratePerBag)
  }

  /** The harvest entry row `create_harvest_entry` stores (crud.py:162-168). */
  function NewHarvestEntry(input: HarvestEntryCreate): (h: HarvestEntry)
    ensures h.farmerId == input.farmerId && h.date == input.date
    ensures h.numBagsReturned == input.numBagsReturned
    ensures h.netWeightPerBagKg == input.netWeightPerBagKg && h.ratePerQuintal == input.ratePerQuintal
    // a quintal is 100 kg: the stored weight is the total kilograms over 100
    ensures 100.0 * h.totalWeightQuintals == input.numBagsReturned as real * input.netWeightPerBagKg
    // the amount in closed form over the inputs
    ensures 100.0 * h.totalAmount == input.numBagsReturned as real * input.netWeightPerBagKg * input.ratePerQuintal
  {
    var weight := (input.numBagsReturned as real * input.netWeightPerBagKg) / 100.0;
    HarvestEntry(
      input.farmerId, input.date, input.numBagsReturned, input.netWeightPerBagKg,
      weight, input.ratePerQuintal, weight * input.ratePerQuintal)
  }

  /** The seed rows a receipt sums: the farmer's first page under the default limit (crud.py:188). */
  function SeedsOnReceipt(seeds: seq<Row<SeedDistribution>>, farmerId: int): seq<Row<SeedDistribution>>
  {
    GetSeedDistributionsByFarmer(seeds, farmerId, 0, DefaultLimit)
  }

  /** The harvest rows a receipt sums: the farmer's first page under the default limit (crud.py:189). */
  function HarvestsOnReceipt(harvests: seq<Row<HarvestEntry>>, farmerId: int): seq<Row<HarvestEntry>>
  {
    GetHarvestEntriesByFarmer(harvests, farmerId, 0, DefaultLimit)
  }

  /** The receipt `calculate_and_create_receipt` computes for an existing farmer (crud.py:188-202). */
  function ReceiptFor(
    seeds: seq<Row<SeedDistribution>>, harvests: seq<Row<HarvestEntry>>, farmerId: int, date: Date)
    : (r: Receipt)
    ensures r.farmerId == farmerId && r.date == date
    ensures r.seedCostDebit == SumOf(SeedsOnReceipt(seeds, farmerId), SeedAmount)
    ensures r.riceSaleCredit == SumOf(HarvestsOnReceipt(harvests, farmerId), HarvestAmount)
    ensures r.finalBalance == r.riceSaleCredit - r.seedCostDebit
  {
    var debit := SumOf(SeedsOnReceipt(seeds, farmerId), SeedAmount);
    var credit := SumOf(HarvestsOnReceipt(harvests, farmerId), HarvestAmount);
    Receipt(farmerId, date, debit, credit, credit - debit)
  }

  // ---------------------------------------------------------------------------
  // What a receipt covers

  /**
   * While a farmer has at most 100 rows of each kind, the receipt is the lifetime
   * aggregate: the debit sums every seed distribution and the credit every harvest entry.
   */
  lemma ReceiptIsLifetimeWhileUnderLimit(
    seeds: seq<Row<SeedDistribution>>, harvests: seq<Row<HarvestEntry>>, farmerId: int, date: Date)
    requires |WithKey(seeds, SeedFarmer, farmerId)| <= DefaultLimit
    requires |WithKey(harvests, HarvestFarmer, farmerId)| <= DefaultLimit
    ensures ReceiptFor(seeds, harvests, farmerId, date).seedCostDebit
         == SumOf(WithKey(seeds, SeedFarmer, farmerId), SeedAmount)
    ensures ReceiptFor(seeds, harvests, farmerId, date).riceSaleCredit
         == SumOf(WithKey(harvests, HarvestFarmer, farmerId), HarvestAmount)
  {
    FirstPageOfShortTable(WithKey(seeds, SeedFarmer, farmerId), DefaultLimit);
    FirstPageOfShortTable(WithKey(harvests, HarvestFarmer, farmerId), DefaultLimit);
  }

  /**
   * Below the limit, a new seed distribution for the farmer raises the debit by exactly
   * its total and lowers the final balance by the same amount.
   */
  lemma NewSeedCountsBelowLimit(
    seeds: seq<Row<SeedDistribution>>, harvests: seq<Row<HarvestEntry>>,
    row: Row<SeedDistribution>, date: Date)
    requires |WithKey(seeds, SeedFarmer, row.value.farmerId)| < DefaultLimit
    ensures var before := ReceiptFor(seeds, harvests, row.value.farmerId, date);
            var after := ReceiptFor(seeds + [row], harvests, row.value.farmerId, date);
            && after.seedCostDebit == before.seedCostDebit + row.value.totalAmount
            && after.finalBalance == before.finalBalance - row.value.totalAmount
  {
    var fid := row.value.farmerId;
    var mine := WithKey(seeds, SeedFarmer, fid);
    WithKeyAppend(seeds, [row], SeedFarmer, fid);
    assert WithKey([row], SeedFarmer, fid) == [row];
    FirstPageOfShortTable(mine, DefaultLimit);
    FirstPageOfShortTable(mine + [row], DefaultLimit);
    SumOfAppend(mine, [row], SeedAmount);
    assert [row][..0] == [];
  }

  /**
   * Once the farmer has 100 seed distributions, a further one leaves the receipt as it
   * was: the receipt does not aggregate the farmer's whole history.
   */
  lemma NewSeedIgnoredAtLimit(
    seeds: seq<Row<SeedDistribution>>, harvests: seq<Row<HarvestEntry>>,
    row: Row<SeedDistribution>, date: Date)
    requires |WithKey(seeds, SeedFarmer, row.value.farmerId)| >= DefaultLimit
    ensures ReceiptFor(seeds + [row], harvests, row.value.farmerId, date)
         == ReceiptFor(seeds, harvests, row.value.farmerId, date)
  {
    var fid := row.value.farmerId;
    WithKeyAppend(seeds, [row], SeedFarmer, fid);
    FirstPageOfLongPrefix(WithKey(seeds, SeedFarmer, fid), WithKey([row], SeedFarmer, fid), DefaultLimit);
  }

  /**
   * Below the limit, a new harvest entry for the farmer raises the credit by exactly
   * its total and the final balance by the same amount.
   */
  lemma NewHarvestCountsBelowLimit(
    seeds: seq<Row<SeedDistribution>>, harvests: seq<Row<HarvestEntry>>,
    row: Row<HarvestEntry>, date: Date)
    requires |WithKey(harvests, HarvestFarmer, row.value.farmerId)| < DefaultLimit
    ensures var before := ReceiptFor(seeds, harvests, row.value.farmerId, date);
            var after := ReceiptFor(seeds, harvests + [row], row.value.farmerId, date);
            && after.riceSaleCredit == before.riceSaleCredit + row.value.totalAmount
            && after.finalBalance == before.finalBalance + row.value.totalAmount
  {
    var fid := row.value.farmerId;
    var mine := WithKey(harvests, HarvestFarmer, fid);
    WithKeyAppend(harvests, [row], HarvestFarmer, fid);
    assert WithKey([row], HarvestFarmer, fid) == [row];
    FirstPageOfShortTable(mine, DefaultLimit);
    FirstPageOfShortTable(mine + [row], DefaultLimit);
    SumOfAppend(mine, [row], HarvestAmount);
    assert [row][..0] == [];
  }

  /** Once the farmer has 100 harvest entries, a further one leaves the receipt as it was. */
  lemma NewHarvestIgnoredAtLimit(
    seeds: seq<Row<SeedDistribution>>, harvests: seq<Row<HarvestEntry>>,
    row: Row<HarvestEntry>, date: Date)
    requires |WithKey(harvests, HarvestFarmer, row.value.farmerId)| >= DefaultLimit
    ensures ReceiptFor(seeds, harvests + [row], row.value.farmerId, date)
         == ReceiptFor(seeds, harvests, row.value.farmerId, date)
  {
    var fid := row.value.farmerId;
    WithKeyAppend(harvests, [row], HarvestFarmer, fid);
    FirstPageOfLongPrefix(WithKey(harvests, HarvestFarmer, fid), WithKey([row], HarvestFarmer, fid), DefaultLimit);
  }

  /** Rows recorded for other farmers never change a farmer's receipt. */
  lemma OtherFarmersRowsIgnored(
    seeds: seq<Row<SeedDistribution>>, harvests: seq<Row<HarvestEntry>>,
    seed: Row<SeedDistribution>, harvest: Row<HarvestEntry>, farmerId: int, date: Date)
    requires seed.value.farmerId != farmerId && harvest.value.farmerId != farmerId
    ensures ReceiptFor(seeds + [seed], harvests + [harvest], farmerId, date)
         == ReceiptFor(seeds, harvests, farmerId, date)
  {
    WithKeyAppend(seeds, [seed], SeedFarmer, farmerId);
    WithKeyAppend(harvests, [harvest], HarvestFarmer, farmerId);
    assert WithKey(seeds, SeedFarmer, farmerId) + [] == WithKey(seeds, SeedFarmer, farmerId);
    assert WithKey(harvests, HarvestFarmer, farmerId) + [] == WithKey(harvests, HarvestFarmer, farmerId);
  }

  /**
   * The worked example: 10 bags of seed at 50 and 10 bags of 60 kg sold at 2000 per
   * quintal give a debit of 500, 6 quintals, a credit of 12000 and a balance of 11500.
   */
  lemma WorkedExample(d: Date)
    ensures var seed := NewSeedDistribution(SeedDistributionCreate(1, d, 10, 50.0));
            var harvest := NewHarvestEntry(HarvestEntryCreate(1, d, 10, 60.0, 2000.0));
            && seed.totalAmount == 500.0
            && harvest.totalWeightQuintals == 6.0
            && harvest.totalAmount == 12000.0
            && ReceiptFor([Row(1, seed)], [Row(1, harvest)], 1, d) == Receipt(1, d, 500.0, 12000.0, 11500.0)
  {
    var seed := NewSeedDistribution(SeedDistributionCreate(1, d, 10, 50.0));
    var harvest := NewHarvestEntry(HarvestEntryCreate(1, d, 10, 60.0, 2000.0));
    ReceiptIsLifetimeWhileUnderLimit([Row(1, seed)], [Row(1, harvest)], 1, d);
    assert WithKey([Row(1, seed)], SeedFarmer, 1) == [Row(1, seed)];
    assert WithKey([Row(1, harvest)], HarvestFarmer, 1) == [Row(1, harvest)];
    assert [Row(1, seed)][..0] == [];
    assert [Row(1, harvest)][..0] == [];
  }
}
