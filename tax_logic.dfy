/** Progressive income tax of backend/tax_logic.py: the 2026 federal and California tables and the
    marginal-bracket loop that both calculators run. */
module TaxLogic {
  import opened Wrappers

  /** A bracket's upper limit; the top bracket of each table has none. */
  datatype Limit = Finite(value: real) | Unbounded

  datatype Bracket = Bracket(rate: real, upTo: Limit)

  /** A federal table entry: standard deduction and brackets. */
  datatype StatusTable = StatusTable(deduction: real, brackets: seq<Bracket>)

  /** A state table entry additionally carries the mental-health surcharge. */
  datatype StateStatusTable = StateStatusTable(
    deduction: real,
    brackets: seq<Bracket>,
    mentalHealthTaxRate: real,
    mentalHealthTaxThreshold: real)

  /** The top marginal rates. Referring to them by name keeps the bracket tables from being
      literals, so the verifier unrolls the bracket recursion only as far as a proof needs. */
  const FederalTopRate: real := 0.37
  const CaTopRate: real := 0.123

  const FederalSingleBrackets: seq<Bracket> := [
    Bracket(0.10, Finite(12400.0)),
    Bracket(0.12, Finite(50400.0)),
    Bracket(0.22, Finite(105700.0)),
    Bracket(0.24, Finite(201775.0)),
    Bracket(0.32, Finite(256225.0)),
    Bracket(0.35, Finite(640600.0)),
    Bracket(FederalTopRate, Unbounded)
  ]

  const FederalSingle: StatusTable := StatusTable(16100.0, FederalSingleBrackets)

  /** FEDERAL_TAX_BRACKETS_2026: only filing status 'single' has a table. */
  const FederalTaxBrackets2026: map<string, StatusTable> := map["single" := FederalSingle]

  const CaSingleBrackets: seq<Bracket> := [
    Bracket(0.01, Finite(11079.0)),
    Bracket(0.02, Finite(26264.0)),
    Bracket(0.04, Finite(41452.0)),
    Bracket(0.06, Finite(57542.0)),
    Bracket(0.08, Finite(72724.0)),
    Bracket(0.093, Finite(371479.0)),
    Bracket(0.103, Finite(445771.0)),
    Bracket(0.113, Finite(742953.0)),
    Bracket(CaTopRate, Unbounded)
  ]

  const CaSingle: StateStatusTable := StateStatusTable(5706.0, CaSingleBrackets, 0.01, 1000000.0)

  /** STATE_TAX_BRACKETS_2026: only 'CA', and within it only 'single'. */
  const StateTaxBrackets2026: map<string, map<string, StateStatusTable>> := map["CA" := map["single" := CaSingle]]

  /** `max(0, income - deduction)`. */
  function TaxableIncome(income: real, deduction: real): (t: real)
    ensures t >= 0.0
    ensures t >= income - deduction
    ensures t == 0.0 || t == income - deduction
    ensures income <= deduction ==> t == 0.0
  {
    if income - deduction > 0.0 then income - deduction else 0.0
  }

  /** `taxable_income > bracket['up_to']`; nothing exceeds the unbounded top limit. */
  predicate Exceeds(t: real, limit: Limit) {
    limit.Finite? && t > limit.value
  }

  /** What the bracket loop computes, started at bracket list `bs` with `prev` as the limit of the
      bracket before it: each exceeded bracket adds its full width times its rate; the first bracket
      not exceeded adds the rest of the income times its rate and stops the loop. */
  function BracketTax(bs: seq<Bracket>, t: real, prev: real): real
    decreases |bs|
  {
    if |bs| == 0 || t == 0.0 then 0.0
    else if Exceeds(t, bs[0].upTo) then
      (bs[0].upTo.value - prev) * bs[0].rate + BracketTax(bs[1..], t, bs[0].upTo.value)
    else
      (t - prev) * bs[0].rate
  }

  /** `min(t, up_to)`, where an unbounded limit caps nothing. */
  function Cap(t: real, limit: Limit): real {
    match limit
    case Unbounded => t
    case Finite(l) => if t < l then t else l
  }

  /** One bracket's part of the closed form: rate * (min(t, up_to) - lower) when the income exceeds
      the bracket's lower edge `lower`, else nothing. */
  function BracketShare(b: Bracket, t: real, lower: real): real {
    if t > lower then b.rate * (Cap(t, b.upTo) - lower) else 0.0
  }

  /** The closed form: the sum of rate_k * (min(t, up_to_k) - up_to_{k-1}) over the brackets whose
      lower edge up_to_{k-1} the income exceeds (the lower edge of the first bracket is `lower`). */
  function ClosedFormTax(bs: seq<Bracket>, t: real, lower: real): real
    decreases |bs|
  {
    if |bs| == 0 then 0.0
    else match bs[0].upTo
      case Unbounded => BracketShare(bs[0], t, lower)
      case Finite(l) => BracketShare(bs[0], t, lower) + ClosedFormTax(bs[1..], t, l)
  }

  /** A bracket table as the loop needs it: rates are non-negative, limits strictly increase above
      `lower`, and the last bracket, and only the last, is unbounded. */
  predicate WellFormed(bs: seq<Bracket>, lower: real)
    decreases |bs|
  {
    |bs| > 0 && bs[0].rate >= 0.0 &&
    match bs[0].upTo
    case Unbounded => |bs| == 1
    case Finite(l) => lower < l && WellFormed(bs[1..], l)
  }

  /** Every rate of the table lies in [lo, hi]. */
  predicate RatesWithin(bs: seq<Bracket>, lo: real, hi: real) {
    forall k :: 0 <= k < |bs| ==> lo <= bs[k].rate <= hi
  }

  /** The loop leaves by a `break`: at the zero-income check or at the first bracket not exceeded,
      before it runs past the last bracket. */
  predicate BreaksWithin(bs: seq<Bracket>, t: real)
    decreases |bs|
  {
    |bs| > 0 && (t == 0.0 || !Exceeds(t, bs[0].upTo) || BreaksWithin(bs[1..], t))
  }

  lemma {:induction false} LoopBreaksWithinTable(bs: seq<Bracket>, t: real, lower: real)
    requires WellFormed(bs, lower)
    ensures BreaksWithin(bs, t)
    decreases |bs|
  {
    if t != 0.0 && Exceeds(t, bs[0].upTo) {
      LoopBreaksWithinTable(bs[1..], t, bs[0].upTo.value);
    }
  }

  lemma {:induction false} ClosedFormZeroBelow(bs: seq<Bracket>, t: real, lower: real)
    requires WellFormed(bs, lower)
    requires t <= lower
    ensures ClosedFormTax(bs, t, lower) == 0.0
    decreases |bs|
  {
    if bs[0].upTo.Finite? {
      ClosedFormZeroBelow(bs[1..], t, bs[0].upTo.value);
    }
  }

  /** The loop's result equals the closed-form sum over brackets. */
  lemma {:induction false} BracketTaxIsClosedForm(bs: seq<Bracket>, t: real, prev: real)
    requires WellFormed(bs, prev)
    requires 0.0 <= prev
    requires t == 0.0 || prev < t
    ensures BracketTax(bs, t, prev) == ClosedFormTax(bs, t, prev)
    decreases |bs|
  {
    if t == 0.0 {
      ClosedFormZeroBelow(bs, t, prev);
    } else if Exceeds(t, bs[0].upTo) {
      BracketTaxIsClosedForm(bs[1..], t, bs[0].upTo.value);
    } else if bs[0].upTo.Finite? {
      ClosedFormZeroBelow(bs[1..], t, bs[0].upTo.value);
    }
  }

  lemma MulMonotone(r: real, a: real, b: real)
    requires r >= 0.0 && a <= b
    ensures r * a <= r * b
  {
  }

  /** One bracket's share is non-decreasing in the income. */
  lemma BracketShareMonotone(b: Bracket, t1: real, t2: real, lower: real)
    requires b.rate >= 0.0
    requires b.upTo.Finite? ==> lower < b.upTo.value
    requires t1 <= t2
    ensures 0.0 <= BracketShare(b, t1, lower) <= BracketShare(b, t2, lower)
  {
    var c1, c2 := Cap(t1, b.upTo), Cap(t2, b.upTo);
    var s1, s2 := BracketShare(b, t1, lower), BracketShare(b, t2, lower);
    assert c1 <= c2;
    if t1 > lower {
      assert c1 > lower && t2 > lower;
      assert s1 == b.rate * (c1 - lower) && s2 == b.rate * (c2 - lower);
      MulMonotone(b.rate, 0.0, c1 - lower);
      MulMonotone(b.rate, c1 - lower, c2 - lower);
    } else if t2 > lower {
      assert c2 > lower;
      assert s1 == 0.0 && s2 == b.rate * (c2 - lower);
      MulMonotone(b.rate, 0.0, c2 - lower);
    } else {
      assert s1 == 0.0 && s2 == 0.0;
    }
  }

  /** The closed form is non-decreasing in the income. */
  lemma {:induction false} ClosedFormMonotone(bs: seq<Bracket>, t1: real, t2: real, lower: real)
    requires WellFormed(bs, lower)
    requires t1 <= t2
    ensures ClosedFormTax(bs, t1, lower) <= ClosedFormTax(bs, t2, lower)
    decreases |bs|
  {
    BracketShareMonotone(bs[0], t1, t2, lower);
    if bs[0].upTo.Finite? {
      ClosedFormMonotone(bs[1..], t1, t2, bs[0].upTo.value);
    }
  }

  lemma MulBetween(lo: real, r: real, hi: real, x: real)
    requires lo <= r <= hi && x >= 0.0
    ensures lo * x <= r * x <= hi * x
  {
  }

  /** Bounds on two adjacent stretches of income add up to bounds on their union. */
  lemma AddBounds(lo: real, hi: real, share: real, rest: real, lower: real, l: real, t: real)
    requires lo * (l - lower) <= share <= hi * (l - lower)
    requires lo * (t - l) <= rest <= hi * (t - l)
    ensures lo * (t - lower) <= share + rest <= hi * (t - lower)
  {
    assert lo * (t - lower) == lo * (l - lower) + lo * (t - l);
    assert hi * (t - lower) == hi * (l - lower) + hi * (t - l);
  }

  lemma RatesWithinTail(bs: seq<Bracket>, lo: real, hi: real)
    requires |bs| > 0 && RatesWithin(bs, lo, hi)
    ensures lo <= bs[0].rate <= hi
    ensures RatesWithin(bs[1..], lo, hi)
  {
    forall k | 0 <= k < |bs[1..]| ensures lo <= bs[1..][k].rate <= hi {
      assert bs[1..][k] == bs[k + 1];
    }
  }

  /** A bracket the income does not exceed contributes between lo and hi times the income above
      its lower edge. */
  lemma ShareBoundsWithin(b: Bracket, t: real, lower: real, lo: real, hi: real)
    requires lo <= b.rate <= hi && lower <= t && !Exceeds(t, b.upTo)
    ensures lo * (t - lower) <= BracketShare(b, t, lower) <= hi * (t - lower)
  {
    var x := t - lower;
    assert Cap(t, b.upTo) == t;
    if t > lower {
      assert BracketShare(b, t, lower) == b.rate * x;
    } else {
      assert x == 0.0 && BracketShare(b, t, lower) == 0.0;
    }
    MulBetween(lo, b.rate, hi, x);
  }

  /** An exceeded bracket contributes between lo and hi times its whole width. */
  lemma ShareBoundsFull(b: Bracket, t: real, lower: real, lo: real, hi: real)
    requires lo <= b.rate <= hi && Exceeds(t, b.upTo) && lower < b.upTo.value
    ensures lo * (b.upTo.value - lower) <= BracketShare(b, t, lower) <= hi * (b.upTo.value - lower)
  {
    var x := b.upTo.value - lower;
    assert Cap(t, b.upTo) == b.upTo.value;
    assert BracketShare(b, t, lower) == b.rate * x;
    MulBetween(lo, b.rate, hi, x);
  }

  /** Above its lower edge the closed form lies between the lowest and the highest rate times the
      income that the brackets cover. */
  lemma {:induction false} ClosedFormBounds(bs: seq<Bracket>, t: real, lower: real, lo: real, hi: real)
    requires WellFormed(bs, lower)
    requires RatesWithin(bs, lo, hi)
    requires lower <= t
    ensures lo * (t - lower) <= ClosedFormTax(bs, t, lower) <= hi * (t - lower)
    decreases |bs|
  {
    RatesWithinTail(bs, lo, hi);
    var share := BracketShare(bs[0], t, lower);
    if !Exceeds(t, bs[0].upTo) {
      ShareBoundsWithin(bs[0], t, lower, lo, hi);
      if bs[0].upTo.Finite? {
        ClosedFormZeroBelow(bs[1..], t, bs[0].upTo.value);
      }
      assert ClosedFormTax(bs, t, lower) == share;
    } else {
      var l := bs[0].upTo.value;
      ClosedFormBounds(bs[1..], t, l, lo, hi);
      ShareBoundsFull(bs[0], t, lower, lo, hi);
      assert ClosedFormTax(bs, t, lower) == share + ClosedFormTax(bs[1..], t, l);
      AddBounds(lo, hi, share, ClosedFormTax(bs[1..], t, l), lower, l, t);
    }
  }

  /** The tax of a well-formed table on any income: non-negative, the closed form, and between the
      lowest and highest rate times the taxable income. */
  lemma TableTaxProperties(bs: seq<Bracket>, deduction: real, income: real, lo: real, hi: real)
    requires WellFormed(bs, 0.0)
    requires RatesWithin(bs, lo, hi)
    ensures var t := TaxableIncome(income, deduction);
      && BracketTax(bs, t, 0.0) == ClosedFormTax(bs, t, 0.0)
      && lo * t <= BracketTax(bs, t, 0.0) <= hi * t
  {
    var t := TaxableIncome(income, deduction);
    BracketTaxIsClosedForm(bs, t, 0.0);
    ClosedFormBounds(bs, t, 0.0, lo, hi);
  }

  /** The tax of a well-formed table does not decrease when the income grows. */
  lemma TableTaxMonotone(bs: seq<Bracket>, deduction: real, income1: real, income2: real)
    requires WellFormed(bs, 0.0)
    requires income1 <= income2
    ensures BracketTax(bs, TaxableIncome(income1, deduction), 0.0)
         <= BracketTax(bs, TaxableIncome(income2, deduction), 0.0)
  {
    var t1, t2 := TaxableIncome(income1, deduction), TaxableIncome(income2, deduction);
    BracketTaxIsClosedForm(bs, t1, 0.0);
    BracketTaxIsClosedForm(bs, t2, 0.0);
    ClosedFormMonotone(bs, t1, t2, 0.0);
  }

  lemma FederalSingleWellFormed()
    ensures WellFormed(FederalSingleBrackets, 0.0)
    ensures RatesWithin(FederalSingleBrackets, 0.10, 0.37)
  {
    var bs := FederalSingleBrackets;
    assert WellFormed(bs[6..], 640600.0);
    assert WellFormed(bs[5..], 256225.0);
    assert WellFormed(bs[4..], 201775.0);
    assert WellFormed(bs[3..], 105700.0);
    assert WellFormed(bs[2..], 50400.0);
    assert WellFormed(bs[1..], 12400.0);
  }

  lemma CaSingleWellFormed()
    ensures WellFormed(CaSingleBrackets, 0.0)
    ensures RatesWithin(CaSingleBrackets, 0.01, 0.123)
  {
    var bs := CaSingleBrackets;
    assert WellFormed(bs[8..], 742953.0);
    assert WellFormed(bs[7..], 445771.0);
    assert WellFormed(bs[6..], 371479.0);
    assert WellFormed(bs[5..], 72724.0);
    assert WellFormed(bs[4..], 57542.0);
    assert WellFormed(bs[3..], 41452.0);
    assert WellFormed(bs[2..], 26264.0);
    assert WellFormed(bs[1..], 11079.0);
  }

  /** `calculate_federal_tax`: raises for a filing status without a table. */
  function FederalTax(income: real, filingStatus: string): (r: Result<real, string>)
    ensures r.Failure? <==> filingStatus != "single"
    ensures r.Failure? ==> r.error == "Invalid filing status: " + filingStatus
  {
    if filingStatus !in FederalTaxBrackets2026 then
      Failure("Invalid filing status: " + filingStatus)
    else
      Success(FederalTableTax(FederalTaxBrackets2026[filingStatus], income))
  }

  /** The tax one federal table levies on an income. */
  function FederalTableTax(table: StatusTable, income: real): real {
    BracketTax(table.brackets, TaxableIncome(income, table.deduction), 0.0)
  }

  /** The CA mental-health surcharge: rate times the taxable income above the threshold. */
  function MentalHealthSurcharge(t: real, table: StateStatusTable): real {
    if t > table.mentalHealthTaxThreshold then
      (t - table.mentalHealthTaxThreshold) * table.mentalHealthTaxRate
    else 0.0
  }

  /** `calculate_state_tax`: raises for an unknown state, then for a filing status that state lacks. */
  function StateTax(income: real, state: string, filingStatus: string): (r: Result<real, string>)
    ensures r.Failure? <==> state != "CA" || filingStatus != "single"
    ensures state != "CA" ==> r == Failure("Tax logic for state " + state + " is not available.")
    ensures state == "CA" && filingStatus != "single" ==>
      r == Failure("Invalid filing status for " + state + ": " + filingStatus)
  {
    if state !in StateTaxBrackets2026 then
      Failure("Tax logic for state " + state + " is not available.")
    else if filingStatus !in StateTaxBrackets2026[state] then
      Failure("Invalid filing status for " + state + ": " + filingStatus)
    else
      Success(StateTableTax(StateTaxBrackets2026[state][filingStatus], income))
  }

  /** The tax one state table levies on an income: brackets, then the surcharge. */
  function StateTableTax(table: StateStatusTable, income: real): real {
    var t := TaxableIncome(income, table.deduction);
    BracketTax(table.brackets, t, 0.0) + MentalHealthSurcharge(t, table)
  }

  /** Single federal tax: zero up to the deduction, the closed form, between 10% and 37% of the
      taxable income, and so never negative. */
  lemma FederalTaxProperties(income: real)
    ensures var t := TaxableIncome(income, 16100.0);
      && FederalTax(income, "single") == Success(ClosedFormTax(FederalSingleBrackets, t, 0.0))
      && 0.10 * t <= FederalTax(income, "single").value <= 0.37 * t
      && FederalTax(income, "single").value >= 0.0
      && (income <= 16100.0 ==> FederalTax(income, "single").value == 0.0)
  {
    FederalSingleWellFormed();
    TableTaxProperties(FederalSingleBrackets, 16100.0, income, 0.10, 0.37);
  }

  lemma FederalTaxMonotone(income1: real, income2: real)
    requires income1 <= income2
    ensures FederalTax(income1, "single").value <= FederalTax(income2, "single").value
  {
    FederalSingleWellFormed();
    TableTaxMonotone(FederalSingleBrackets, 16100.0, income1, income2);
  }

  /** The loop of either calculator always stops at a `break` inside its table. */
  lemma TablesAlwaysBreak(t: real)
    ensures BreaksWithin(FederalSingleBrackets, t)
    ensures BreaksWithin(CaSingleBrackets, t)
  {
    FederalSingleWellFormed();
    CaSingleWellFormed();
    LoopBreaksWithinTable(FederalSingleBrackets, t, 0.0);
    LoopBreaksWithinTable(CaSingleBrackets, t, 0.0);
  }

  /** 28,500 of income leaves 12,400 taxable, all of it in the 10% bracket. */
  lemma FederalTaxExample()
    ensures FederalTax(28500.0, "single") == Success(1240.0)
  {
  }

  /** The surcharge is never negative, never more than its rate times the whole taxable income, and
      does not decrease as the taxable income grows. */
  lemma SurchargeProperties(table: StateStatusTable, t1: real, t2: real)
    requires 0.0 <= table.mentalHealthTaxRate && 0.0 <= table.mentalHealthTaxThreshold
    requires 0.0 <= t1 <= t2
    ensures 0.0 <= MentalHealthSurcharge(t1, table) <= table.mentalHealthTaxRate * t1
    ensures MentalHealthSurcharge(t1, table) <= MentalHealthSurcharge(t2, table)
  {
    var rate, threshold := table.mentalHealthTaxRate, table.mentalHealthTaxThreshold;
    var s1, s2 := MentalHealthSurcharge(t1, table), MentalHealthSurcharge(t2, table);
    MulMonotone(rate, 0.0, t1);
    if t1 > threshold {
      assert s1 == rate * (t1 - threshold) && s2 == rate * (t2 - threshold);
      MulMonotone(rate, 0.0, t1 - threshold);
      MulMonotone(rate, t1 - threshold, t1);
      MulMonotone(rate, t1 - threshold, t2 - threshold);
    } else if t2 > threshold {
      assert s1 == 0.0 && s2 == rate * (t2 - threshold);
      MulMonotone(rate, 0.0, t2 - threshold);
    } else {
      assert s1 == 0.0 && s2 == 0.0;
    }
  }

  /** A state table with a well-formed bracket list and a non-negative surcharge levies a tax
      between the lowest rate and the top rate plus the surcharge rate times the taxable income. */
  lemma StateTableTaxBounds(table: StateStatusTable, income: real, lo: real, hi: real)
    requires WellFormed(table.brackets, 0.0) && RatesWithin(table.brackets, lo, hi)
    requires 0.0 <= table.mentalHealthTaxRate && 0.0 <= table.mentalHealthTaxThreshold
    ensures var t := TaxableIncome(income, table.deduction);
      lo * t <= StateTableTax(table, income) <= hi * t + table.mentalHealthTaxRate * t
  {
    var t := TaxableIncome(income, table.deduction);
    TableTaxProperties(table.brackets, table.deduction, income, lo, hi);
    SurchargeProperties(table, t, t);
  }

  lemma StateTableTaxMonotone(table: StateStatusTable, income1: real, income2: real)
    requires WellFormed(table.brackets, 0.0)
    requires 0.0 <= table.mentalHealthTaxRate && 0.0 <= table.mentalHealthTaxThreshold
    requires income1 <= income2
    ensures StateTableTax(table, income1) <= StateTableTax(table, income2)
  {
    TableTaxMonotone(table.brackets, table.deduction, income1, income2);
    SurchargeProperties(table, TaxableIncome(income1, table.deduction), TaxableIncome(income2, table.deduction));
  }

  /** A state table's tax is its bracket tax plus rate * (taxable - threshold) above the threshold,
      and the bracket tax alone at or below it. */
  lemma StateTableSurcharge(table: StateStatusTable, income: real)
    ensures var t := TaxableIncome(income, table.deduction);
      && (t > table.mentalHealthTaxThreshold ==>
            StateTableTax(table, income) ==
            BracketTax(table.brackets, t, 0.0) + table.mentalHealthTaxRate * (t - table.mentalHealthTaxThreshold))
      && (t <= table.mentalHealthTaxThreshold ==> StateTableTax(table, income) == BracketTax(table.brackets, t, 0.0))
  {
  }

  /** CA single tax is the bracket tax plus 1% of the taxable income above 1,000,000, and only above it. */
  lemma CaTaxSurcharge(income: real)
    ensures var t := TaxableIncome(income, 5706.0);
      && StateTax(income, "CA", "single") == Success(StateTableTax(CaSingle, income))
      && (t > 1000000.0 ==> StateTableTax(CaSingle, income) == BracketTax(CaSingleBrackets, t, 0.0) + 0.01 * (t - 1000000.0))
      && (t <= 1000000.0 ==> StateTableTax(CaSingle, income) == BracketTax(CaSingleBrackets, t, 0.0))
  {
    StateTableSurcharge(CaSingle, income);
  }

  /** CA single tax: zero up to the deduction, never negative, at least 1% and at most 13.3% of the
      taxable income (12.3% top rate plus the 1% surcharge). */
  lemma CaTaxProperties(income: real)
    ensures var t := TaxableIncome(income, 5706.0);
      && 0.01 * t <= StateTax(income, "CA", "single").value <= 0.133 * t
      && StateTax(income, "CA", "single").value >= 0.0
      && (income <= 5706.0 ==> StateTax(income, "CA", "single").value == 0.0)
  {
    assert StateTax(income, "CA", "single") == Success(StateTableTax(CaSingle, income));
    CaSingleWellFormed();
    StateTableTaxBounds(CaSingle, income, 0.01, 0.123);
  }

  lemma CaTaxMonotone(income1: real, income2: real)
    requires income1 <= income2
    ensures StateTax(income1, "CA", "single").value <= StateTax(income2, "CA", "single").value
  {
    assert StateTax(income1, "CA", "single") == Success(StateTableTax(CaSingle, income1));
    assert StateTax(income2, "CA", "single") == Success(StateTableTax(CaSingle, income2));
    CaSingleWellFormed();
    StateTableTaxMonotone(CaSingle, income1, income2);
  }

  /** The marginal-bracket loop shared by both calculators. */
  method BracketLoop(brackets: seq<Bracket>, taxableIncome: real) returns (tax: real)
    ensures tax == BracketTax(brackets, taxableIncome, 0.0)
  {
    tax := 0.0;
    var previousBracketLimit := 0.0;
    var i := 0;
    while i < |brackets|
      invariant 0 <= i <= |brackets|
      invariant tax + BracketTax(brackets[i..], taxableIncome, previousBracketLimit)
             == BracketTax(brackets, taxableIncome, 0.0)
    {
      if taxableIncome == 0.0 {
        break;
      }
      var bracket := brackets[i];
      if Exceeds(taxableIncome, bracket.upTo) {
        assert brackets[i..][1..] == brackets[i + 1..];
        tax := tax + (bracket.upTo.value - previousBracketLimit) * bracket.rate;
        previousBracketLimit := bracket.upTo.value;
      } else {
        tax := tax + (taxableIncome - previousBracketLimit) * bracket.rate;
        break;
      }
      i := i + 1;
    }
  }

  /** `calculate_federal_tax(income, filing_status)`. */
  method CalculateFederalTax(income: real, filingStatus: string) returns (r: Result<real, string>)
    ensures r == FederalTax(income, filingStatus)
  {
    if filingStatus !in FederalTaxBrackets2026 {
      return Failure("Invalid filing status: " + filingStatus);
    }
    var tax := ApplyFederalTable(FederalTaxBrackets2026[filingStatus], income);
    r := Success(tax);
  }

  /** The body of `calculate_federal_tax` once the table is chosen. */
  method ApplyFederalTable(statusBrackets: StatusTable, income: real) returns (tax: real)
    ensures tax == FederalTableTax(statusBrackets, income)
  {
    var taxableIncome := TaxableIncome(income, statusBrackets.deduction);
    tax := BracketLoop(statusBrackets.brackets, taxableIncome);
  }

  /** `calculate_state_tax(income, state, filing_status)`. */
  method CalculateStateTax(income: real, state: string, filingStatus: string) returns (r: Result<real, string>)
    ensures r == StateTax(income, state, filingStatus)
  {
    if state !in StateTaxBrackets2026 {
      return Failure("Tax logic for state " + state + " is not available.");
    }
    if filingStatus !in StateTaxBrackets2026[state] {
      return Failure("Invalid filing status for " + state + ": " + filingStatus);
    }
    var tax := ApplyStateTable(StateTaxBrackets2026[state][filingStatus], income);
    r := Success(tax);
  }

  /** The body of `calculate_state_tax` once the table is chosen: the bracket loop, then the
      mental-health surcharge on taxable income above the threshold. */
  method ApplyStateTable(stateBrackets: StateStatusTable, income: real) returns (tax: real)
    ensures tax == StateTableTax(stateBrackets, income)
  {
    var taxableIncome := TaxableIncome(income, stateBrackets.deduction);
    tax := BracketLoop(stateBrackets.brackets, taxableIncome);
    if taxableIncome > stateBrackets.mentalHealthTaxThreshold {
      tax := tax + (taxableIncome - stateBrackets.mentalHealthTaxThreshold) * stateBrackets.mentalHealthTaxRate;
    }
  }
}
