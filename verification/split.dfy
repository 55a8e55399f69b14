/** The revenue splitter: how a freshly minted amount is shared between the
    writer (the mint beneficiary), the system wallet and the holder pool. */
module Split {
  import opened Base

  /** Paid rates as whole percentages. The holder rate is never stored: it
      is whatever the other two leave of 100. */
  datatype PaidRates = PaidRates(system: nat, writer: nat)

  type Rates = r: PaidRates | r.system + r.writer <= 100 witness PaidRates(10, 70)

  /** The rates a freshly deployed token starts with: system 10, writer 70,
      holders 20. */
  const DefaultRates: Rates := PaidRates(10, 70)

  function HoldersRate(r: Rates): nat {
    100 - r.system - r.writer
  }

  datatype Shares = Shares(writer: nat, system: nat, holders: nat)

  /** `rate` percent of `amount`, rounded down. */
  function Portion(amount: nat, rate: nat): (p: nat)
    ensures p * 100 <= amount * rate < p * 100 + 100
  {
    amount * rate / 100
  }

  lemma MulDistributes(a: nat, s: nat, w: nat)
    requires s + w <= 100
    ensures a * s + a * w + a * (100 - s - w) == a * 100
  {
    calc {
      a * s + a * w + a * (100 - s - w);
      a * (s + w + (100 - s - w));
      a * 100;
    }
  }

  /** The system and writer portions together never exceed the amount. */
  lemma PortionsFit(amount: nat, r: Rates)
    ensures Portion(amount, r.system) + Portion(amount, r.writer) <= amount
  {
    var sys := Portion(amount, r.system);
    var wri := Portion(amount, r.writer);
    MulDistributes(amount, r.system, r.writer);
    assert (sys + wri) * 100 <= amount * 100;
  }

  /** System and writer get their rate of the amount rounded down; the
      holder pool gets everything else, so the rounding remainder goes to
      the pool and nothing is lost. */
  function SplitAmount(amount: nat, r: Rates): (s: Shares)
    ensures s.writer + s.system + s.holders == amount
    ensures s.writer * 100 <= amount * r.writer < s.writer * 100 + 100
    ensures s.system * 100 <= amount * r.system < s.system * 100 + 100
    ensures amount * HoldersRate(r) <= s.holders * 100 < amount * HoldersRate(r) + 200
  {
    var sys := Portion(amount, r.system);
    var wri := Portion(amount, r.writer);
    PortionsFit(amount, r);
    MulDistributes(amount, r.system, r.writer);
    Shares(wri, sys, amount - sys - wri)
  }

  /** When the amount is a multiple of 100 there is no remainder: each party
      gets exactly its rate. */
  lemma {:induction false} SplitExact(amount: nat, r: Rates)
    requires amount % 100 == 0
    ensures SplitAmount(amount, r)
         == Shares(amount / 100 * r.writer, amount / 100 * r.system, amount / 100 * HoldersRate(r))
  {
    var q := amount / 100;
    var s := SplitAmount(amount, r);
    assert amount == q * 100;
    assert amount * r.writer == (q * r.writer) * 100;
    assert amount * r.system == (q * r.system) * 100;
    assert s.writer == q * r.writer;
    assert s.system == q * r.system;
    MulDistributes(q, r.system, r.writer);
  }

  /** The default split of 10,000 is 7,000 / 1,000 / 2,000 — in any unit,
      so also for 10,000 tokens of 18 decimals. */
  lemma DefaultSplit(unit: nat)
    ensures SplitAmount(10000 * unit, DefaultRates) == Shares(7000 * unit, 1000 * unit, 2000 * unit)
  {
    SplitExact(10000 * unit, DefaultRates);
  }

  /** At the default rates every hundred units split 70 / 10 / 20. */
  lemma DefaultSplitPerHundred(unit: nat)
    ensures SplitAmount(100 * unit, DefaultRates) == Shares(70 * unit, 10 * unit, 20 * unit)
  {
    SplitExact(100 * unit, DefaultRates);
    assert (100 * unit) / 100 == unit;
  }

  /** Validation of new rates: each rate below 100 and together at most
      100, so the derived holder rate is never negative. */
  function CheckRates(system: nat, writer: nat): (r: Result<Rates>)
    ensures r.Ok? <==> system < 100 && writer < 100 && system + writer <= 100
    ensures r.Ok? ==> r.value.system == system && r.value.writer == writer
    ensures r.Ok? ==> HoldersRate(r.value) + system + writer == 100
    ensures r.Err? ==> r.error == InvalidArgument
  {
    if system >= 100 || writer >= 100 || system + writer > 100 then Err(InvalidArgument)
    else Ok(PaidRates(system, writer))
  }

  /** After rates (20, 60) the split of 10,000 is 6,000 / 2,000 / 2,000. */
  lemma ChangedRatesSplit(unit: nat)
    ensures CheckRates(20, 60).Ok?
    ensures SplitAmount(10000 * unit, CheckRates(20, 60).value) == Shares(6000 * unit, 2000 * unit, 2000 * unit)
  {
    SplitExact(10000 * unit, CheckRates(20, 60).value);
  }
}
