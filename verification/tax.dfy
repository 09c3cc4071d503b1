/**
 * The tax calculators: the GST calculator, the progressive income-tax
 * calculator with its two slab schedules plus cess, and the flat 18% estimate
 * shown on the dashboard.
 */
module Tax {
  import opened Wrappers
  import Ledger

  // ---------------------------------------------------------------------------
  // GST

  /** What the GST calculator shows. */
  datatype GstResult = GstResult(base: real, rate: real, gstAmount: real, total: real)

  /** GST rate used when the rate field is empty. */
  const DefaultGstRate: real := 18.0

  /** `calculateGST`: an empty base field counts as 0 and an empty rate field as 18%. */
  function Gst(baseField: Option<real>, rateField: Option<real>): (r: GstResult)
    ensures r.base == (if baseField.Some? then baseField.value else 0.0)
    ensures r.rate == (if rateField.Some? then rateField.value else DefaultGstRate)
    ensures r.total - r.base == r.gstAmount
    ensures r.total == r.base * (100.0 + r.rate) / 100.0
  {
    var base := if baseField.Some? then baseField.value else 0.0;
    var rate := if rateField.Some? then rateField.value else DefaultGstRate;
    var gstAmount := base * (rate / 100.0);
    GstResult(base, rate, gstAmount, base + gstAmount)
  }

  /** The base a GST-inclusive total came from. */
  function BaseFromTotal(total: real, rate: real): real
    requires rate != -100.0
  {
    total * 100.0 / (100.0 + rate)
  }

  /** The inclusive total determines the base again, for every rate except -100%. */
  lemma GstRoundTrip(base: real, rate: real)
    requires rate != -100.0
    ensures BaseFromTotal(Gst(Some(base), Some(rate)).total, rate) == base
  {
    var r := Gst(Some(base), Some(rate));
    var k := 100.0 + rate;
    assert r.total * 100.0 == base * k;
    assert k != 0.0;
    CancelFactor(base, k);
  }

  /** Multiplying by a non-zero factor and dividing by it again is the identity. */
  lemma CancelFactor(x: real, k: real)
    requires k != 0.0
    ensures x * k / k == x
  {
    var q := x * k / k;
    assert q * k == x * k;
    assert (q - x) * k == 0.0;
  }

  /** The worked example: 18% on 1000 is 180, for a total of 1180; an empty
      rate field gives the same figures. */
  lemma GstExample()
    ensures Gst(Some(1000.0), Some(18.0)) == GstResult(1000.0, 18.0, 180.0, 1180.0)
    ensures Gst(Some(1000.0), None) == Gst(Some(1000.0), Some(18.0))
  {
  }

  // ---------------------------------------------------------------------------
  // Income tax

  /** The deduction the old regime subtracts before the slabs. */
  const StandardDeduction: real := 50000.0

  /** Health and education cess, a flat share of the slab tax. */
  const CessRate: real := 0.04

  /** Old-regime slab schedule on taxable income; each test is `<=`. Nothing is
      due up to 250000 and the tax is never negative. */
  function OldRegimeSlabTax(taxable: real): (t: real)
    ensures t == 0.0 <==> taxable <= 250000.0
    ensures 0.0 <= t
  {
    if taxable <= 250000.0 then 0.0
    else if taxable <= 500000.0 then (taxable - 250000.0) * 0.05
    else if taxable <= 1000000.0 then 12500.0 + (taxable - 500000.0) * 0.20
    else 112500.0 + (taxable - 1000000.0) * 0.30
  }

  /** New-regime slab schedule on taxable income; each test is `<=`. Nothing is
      due up to 300000 and the tax is never negative. */
  function NewRegimeSlabTax(taxable: real): (t: real)
    ensures t == 0.0 <==> taxable <= 300000.0
    ensures 0.0 <= t
  {
    if taxable <= 300000.0 then 0.0
    else if taxable <= 700000.0 then (taxable - 300000.0) * 0.05
    else if taxable <= 1000000.0 then 20000.0 + (taxable - 700000.0) * 0.10
    else if taxable <= 1200000.0 then 50000.0 + (taxable - 1000000.0) * 0.15
    else if taxable <= 1500000.0 then 80000.0 + (taxable - 1200000.0) * 0.20
    else 140000.0 + (taxable - 1500000.0) * 0.30
  }

  /** A marginal band: income between `lower` and `upper` (no upper bound when
      `None`) is taxed at `rate`. This is the independent description the two
      slab schedules are checked against. */
  datatype Band = Band(lower: real, upper: Option<real>, rate: real)

  const OldRegimeBands: seq<Band> := [
    Band(250000.0, Some(500000.0), 0.05),
    Band(500000.0, Some(1000000.0), 0.20),
    Band(1000000.0, None, 0.30)
  ]

  const NewRegimeBands: seq<Band> := [
    Band(300000.0, Some(700000.0), 0.05),
    Band(700000.0, Some(1000000.0), 0.10),
    Band(1000000.0, Some(1200000.0), 0.15),
    Band(1200000.0, Some(1500000.0), 0.20),
    Band(1500000.0, None, 0.30)
  ]

  predicate BandsWellFormed(bands: seq<Band>)
  {
    forall i :: 0 <= i < |bands| ==>
      bands[i].rate >= 0.0 && (bands[i].upper.Some? ==> bands[i].lower <= bands[i].upper.value)
  }

  /** How much of `x` falls inside band `b`. */
  function Portion(x: real, b: Band): real
  {
    if x <= b.lower then 0.0
    else if b.upper.Some? && x > b.upper.value then b.upper.value - b.lower
    else x - b.lower
  }

  /** Tax as the sum over bands of rate times the income inside the band. */
  function MarginalTax(x: real, bands: seq<Band>): real
  {
    if |bands| == 0 then 0.0
    else bands[0].rate * Portion(x, bands[0]) + MarginalTax(x, bands[1..])
  }

  /** The share of income inside a band grows with the income and is never negative. */
  lemma PortionMonotone(band: Band, a: real, b: real)
    requires band.upper.Some? ==> band.lower <= band.upper.value
    requires a <= b
    ensures 0.0 <= Portion(a, band) <= Portion(b, band)
  {
  }

  /** More income never means less tax under well-formed bands. */
  lemma {:induction false} MarginalTaxMonotone(bands: seq<Band>, a: real, b: real)
    requires BandsWellFormed(bands)
    requires a <= b
    ensures 0.0 <= MarginalTax(a, bands) <= MarginalTax(b, bands)
  {
    if |bands| > 0 {
      var ta, tb := bands[0].rate * Portion(a, bands[0]), bands[0].rate * Portion(b, bands[0]);
      BandTaxMonotone(bands[0], a, b);
      assert 0.0 <= ta <= tb;
      TailWellFormed(bands);
      MarginalTaxMonotone(bands[1..], a, b);
      var ra, rb := MarginalTax(a, bands[1..]), MarginalTax(b, bands[1..]);
      assert 0.0 <= ra <= rb;
      assert MarginalTax(a, bands) == ta + ra;
      assert MarginalTax(b, bands) == tb + rb;
    }
  }

  /** One band's tax grows with the income and is never negative. */
  lemma BandTaxMonotone(band: Band, a: real, b: real)
    requires band.rate >= 0.0 && (band.upper.Some? ==> band.lower <= band.upper.value)
    requires a <= b
    ensures 0.0 <= band.rate * Portion(a, band) <= band.rate * Portion(b, band)
  {
    var pa, pb := Portion(a, band), Portion(b, band);
    PortionMonotone(band, a, b);
    NonNegativeProduct(band.rate, pa);
    NonNegativeProduct(band.rate, pb - pa);
    assert band.rate * (pb - pa) == band.rate * pb - band.rate * pa;
  }

  lemma TailWellFormed(bands: seq<Band>)
    requires BandsWellFormed(bands) && |bands| > 0
    ensures BandsWellFormed(bands[1..])
  {
    var rest := bands[1..];
    forall i | 0 <= i < |rest|
      ensures rest[i].rate >= 0.0
      ensures rest[i].upper.Some? ==> rest[i].lower <= rest[i].upper.value
    {
      assert rest[i] == bands[i + 1];
    }
  }

  lemma NonNegativeProduct(x: real, y: real)
    requires 0.0 <= x && 0.0 <= y
    ensures 0.0 <= x * y
  {
  }

  /** The old-regime `if` chain is the marginal-band schedule: adjacent slab
      formulas agree at every `<=` boundary, so nothing jumps. */
  lemma OldRegimeIsMarginal(taxable: real)
    ensures OldRegimeSlabTax(taxable) == MarginalTax(taxable, OldRegimeBands)
  {
    var bs := OldRegimeBands;
    assert MarginalTax(taxable, bs[2..]) == 0.30 * Portion(taxable, bs[2]) by {
      assert bs[2..][1..] == [];
    }
    assert MarginalTax(taxable, bs[1..]) == 0.20 * Portion(taxable, bs[1]) + MarginalTax(taxable, bs[2..]) by {
      assert bs[1..][1..] == bs[2..];
    }
  }

  /** The new-regime `if` chain is the marginal-band schedule. */
  lemma NewRegimeIsMarginal(taxable: real)
    ensures NewRegimeSlabTax(taxable) == MarginalTax(taxable, NewRegimeBands)
  {
    var bs := NewRegimeBands;
    assert MarginalTax(taxable, bs[4..]) == 0.30 * Portion(taxable, bs[4]) by {
      assert bs[4..][1..] == [];
    }
    assert MarginalTax(taxable, bs[3..]) == 0.20 * Portion(taxable, bs[3]) + MarginalTax(taxable, bs[4..]) by {
      assert bs[3..][1..] == bs[4..];
    }
    assert MarginalTax(taxable, bs[2..]) == 0.15 * Portion(taxable, bs[2]) + MarginalTax(taxable, bs[3..]) by {
      assert bs[2..][1..] == bs[3..];
    }
    assert MarginalTax(taxable, bs[1..]) == 0.10 * Portion(taxable, bs[1]) + MarginalTax(taxable, bs[2..]) by {
      assert bs[1..][1..] == bs[2..];
    }
  }

  /** What the income-tax calculator shows. */
  datatype IncomeTaxResult = IncomeTaxResult(taxable: real, tax: real, cess: real, totalTax: real)

  /** `calculateIncomeTax`: the regime value `"old"` selects the old regime with
      its standard deduction; every other value selects the new regime, where
      the taxable amount is the income itself. */
  function IncomeTax(annualIncome: real, regime: string): (r: IncomeTaxResult)
    ensures regime == "old" ==>
      r.taxable == (if annualIncome - StandardDeduction > 0.0 then annualIncome - StandardDeduction else 0.0)
      && r.tax == MarginalTax(r.taxable, OldRegimeBands)
    ensures regime != "old" ==>
      r.taxable == annualIncome && r.tax == MarginalTax(annualIncome, NewRegimeBands)
    ensures 0.0 <= r.tax
    ensures r.cess == CessRate * r.tax
    ensures r.totalTax == r.tax + r.cess
  {
    var taxable :=
      if regime == "old" then (if annualIncome - StandardDeduction > 0.0 then annualIncome - StandardDeduction else 0.0)
      else annualIncome;
    var tax := if regime == "old" then OldRegimeSlabTax(taxable) else NewRegimeSlabTax(taxable);
    OldRegimeIsMarginal(taxable);
    NewRegimeIsMarginal(taxable);
    MarginalTaxMonotone(OldRegimeBands, taxable, taxable);
    MarginalTaxMonotone(NewRegimeBands, taxable, taxable);
    var cess := tax * 0.04;
    IncomeTaxResult(taxable, tax, cess, tax + cess)
  }

  /** Within one regime, a higher income never yields a lower tax or total. */
  lemma IncomeTaxMonotone(a: real, b: real, regime: string)
    requires a <= b
    ensures IncomeTax(a, regime).tax <= IncomeTax(b, regime).tax
    ensures IncomeTax(a, regime).totalTax <= IncomeTax(b, regime).totalTax
  {
    var ra := IncomeTax(a, regime);
    var rb := IncomeTax(b, regime);
    if regime == "old" {
      MarginalTaxMonotone(OldRegimeBands, ra.taxable, rb.taxable);
    } else {
      MarginalTaxMonotone(NewRegimeBands, a, b);
    }
  }

  /** The slab boundaries of both schedules. */
  lemma SlabBoundaryExamples()
    ensures OldRegimeSlabTax(250000.0) == 0.0
    ensures OldRegimeSlabTax(500000.0) == 12500.0
    ensures OldRegimeSlabTax(1000000.0) == 112500.0
    ensures NewRegimeSlabTax(300000.0) == 0.0
    ensures NewRegimeSlabTax(700000.0) == 20000.0
    ensures NewRegimeSlabTax(1000000.0) == 50000.0
    ensures NewRegimeSlabTax(1200000.0) == 80000.0
    ensures NewRegimeSlabTax(1500000.0) == 140000.0
    ensures IncomeTax(300000.0, "old").tax == 0.0
    ensures IncomeTax(1050000.0, "old").totalTax == 117000.0
  {
  }

  /** The old regime never charges more than 30% of the income above 250000;
      the new regime never more than 30% of the income above 300000. */
  lemma TopRateBound(taxable: real)
    ensures OldRegimeSlabTax(taxable) <= 0.30 * (if taxable > 250000.0 then taxable - 250000.0 else 0.0)
    ensures NewRegimeSlabTax(taxable) <= 0.30 * (if taxable > 300000.0 then taxable - 300000.0 else 0.0)
  {
  }

  // ---------------------------------------------------------------------------
  // Dashboard estimate

  /** `calculateTaxLiability`: 18% of the income in the given transactions. */
  function TaxLiability(txs: seq<Ledger.Transaction>): (r: real)
    ensures r == 0.18 * Ledger.SumWhere(txs, Ledger.OfType(Ledger.Income))
    ensures Ledger.NonNegativeAmounts(txs) ==> r >= 0.0
  {
    var income := Ledger.SumWhere(txs, Ledger.OfType(Ledger.Income));
    if Ledger.NonNegativeAmounts(txs) then
      Ledger.SumWhereNonNegative(txs, Ledger.OfType(Ledger.Income));
      income * 0.18
    else
      income * 0.18
  }

  /** The estimate reacts to income transactions only: adding any other
      transaction leaves it unchanged, adding an income adds 18% of it. */
  lemma TaxLiabilityIncomeOnly(txs: seq<Ledger.Transaction>, t: Ledger.Transaction)
    ensures TaxLiability(txs + [t])
         == TaxLiability(txs) + (if t.txType == Ledger.Income then 0.18 * t.amount else 0.0)
  {
    Ledger.SumWhereExtend(txs, t, Ledger.OfType(Ledger.Income));
  }
}
