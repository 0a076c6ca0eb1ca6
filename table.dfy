/** The working table of one (Month, Periode, data type) selection: one row per
    cement type with its clinker consumption, cement production and Clinker
    Factor, and the sums and the consolidated factor taken over it.
    Quantities are real numbers: floating-point rounding is not modelled. */
module Table {

  /** One row of the working table. */
  datatype Row = Row(cementType: string, consumption: real, production: real, factor: real)

  /** What a simulation mode produces: nothing (the mode did not run), or the
      rewritten table and its new consolidated Clinker Factor. */
  datatype Simulation = NotRun | Simulated(table: seq<Row>, consolidatedFactor: real)

  /** Clinker consumed per cement produced, in percent. */
  function ClinkerFactor(consumption: real, production: real): real
    requires production != 0.0
  {
    consumption / production * 100.0
  }

  /** The cement types present in a table. */
  function Types(rows: seq<Row>): set<string>
  {
    set i | 0 <= i < |rows| :: rows[i].cementType
  }

  /** Every row produced a positive amount of cement. */
  predicate PositiveProduction(rows: seq<Row>)
  {
    forall i :: 0 <= i < |rows| ==> rows[i].production > 0.0
  }

  /** Every row's factor column agrees with its consumption and production. */
  predicate FactorsConsistent(rows: seq<Row>)
  {
    forall i :: 0 <= i < |rows| ==>
      rows[i].production != 0.0 && rows[i].factor == ClinkerFactor(rows[i].consumption, rows[i].production)
  }

  /** Two tables of the same length whose rows have the same cement type and the
      same production, row by row. */
  predicate SameTypesAndProduction(a: seq<Row>, b: seq<Row>)
  {
    |a| == |b| &&
    forall i :: 0 <= i < |a| ==> a[i].cementType == b[i].cementType && a[i].production == b[i].production
  }

  /** Total clinker consumption of a table. */
  function SumConsumption(rows: seq<Row>): real
  {
    if rows == [] then 0.0 else rows[0].consumption + SumConsumption(rows[1..])
  }

  /** Total cement production of a table. */
  function SumProduction(rows: seq<Row>): real
  {
    if rows == [] then 0.0 else rows[0].production + SumProduction(rows[1..])
  }

  /** Sum of production times factor: the numerator of a production-weighted mean
      of the per-row factors. */
  function WeightedFactorSum(rows: seq<Row>): real
  {
    if rows == [] then 0.0 else rows[0].production * rows[0].factor + WeightedFactorSum(rows[1..])
  }

  /** The consolidated Clinker Factor: total clinker over total cement, in percent. */
  function ConsolidatedFactor(rows: seq<Row>): real
    requires SumProduction(rows) != 0.0
  {
    SumConsumption(rows) / SumProduction(rows) * 100.0
  }

  /** Total production is at least the production of any one row, so it is
      positive as soon as one row exists. */
  lemma {:induction false} SumProductionAtLeastRow(rows: seq<Row>, i: int)
    requires PositiveProduction(rows)
    requires 0 <= i < |rows|
    ensures SumProduction(rows) >= rows[i].production > 0.0
  {
    if i > 0 {
      SumProductionAtLeastRow(rows[1..], i - 1);
      SumProductionNonNegative(rows[1..]);
    } else {
      SumProductionNonNegative(rows[1..]);
    }
  }

  lemma {:induction false} SumProductionNonNegative(rows: seq<Row>)
    requires PositiveProduction(rows)
    ensures SumProduction(rows) >= 0.0
  {
    if rows != [] {
      SumProductionNonNegative(rows[1..]);
    }
  }

  /** Rewriting consumption and factor never changes total production. */
  lemma {:induction false} SameProductionSameSum(a: seq<Row>, b: seq<Row>)
    requires SameTypesAndProduction(a, b)
    ensures SumProduction(a) == SumProduction(b)
  {
    if a != [] {
      SameProductionSameSum(a[1..], b[1..]);
    }
  }

  /** Rewriting consumption and factor never changes which types are present. */
  lemma SameTypesSameSet(a: seq<Row>, b: seq<Row>)
    requires SameTypesAndProduction(a, b)
    ensures Types(a) == Types(b)
  {
    forall t | t in Types(a) ensures t in Types(b) {
      var i :| 0 <= i < |a| && a[i].cementType == t;
      assert b[i].cementType == t;
    }
    forall t | t in Types(b) ensures t in Types(a) {
      var i :| 0 <= i < |b| && b[i].cementType == t;
      assert a[i].cementType == t;
    }
  }

  /** When every factor column is consistent, production times factor is
      one hundred times the consumption, summed over the table. */
  lemma {:induction false} WeightedSumIsConsumption(rows: seq<Row>)
    requires FactorsConsistent(rows)
    ensures WeightedFactorSum(rows) == SumConsumption(rows) * 100.0
  {
    if rows != [] {
      var r := rows[0];
      assert r.production * (r.consumption / r.production * 100.0) == r.consumption * 100.0;
      WeightedSumIsConsumption(rows[1..]);
    }
  }

  /** The consolidated factor is the production-weighted mean of the per-row
      factors. */
  lemma ConsolidatedIsWeightedMean(rows: seq<Row>)
    requires FactorsConsistent(rows)
    requires SumProduction(rows) != 0.0
    ensures ConsolidatedFactor(rows) == WeightedFactorSum(rows) / SumProduction(rows)
  {
    WeightedSumIsConsumption(rows);
    PercentOfQuotient(SumConsumption(rows), SumProduction(rows), WeightedFactorSum(rows));
  }

  lemma PercentOfQuotient(c: real, p: real, w: real)
    requires p != 0.0 && w == c * 100.0
    ensures c / p * 100.0 == w / p
  {
  }

  /** Bounds on the per-row factors bound the weighted sum. */
  lemma {:induction false} WeightedSumBounds(rows: seq<Row>, lo: real, hi: real)
    requires PositiveProduction(rows)
    requires forall i :: 0 <= i < |rows| ==> lo <= rows[i].factor <= hi
    ensures lo * SumProduction(rows) <= WeightedFactorSum(rows) <= hi * SumProduction(rows)
  {
    if rows != [] {
      var r, rest := rows[0], rows[1..];
      WeightedSumBounds(rest, lo, hi);
      StepBounds(r.production, r.factor, SumProduction(rest), WeightedFactorSum(rest), lo, hi);
    }
  }

  /** One inductive step of WeightedSumBounds, as arithmetic on reals. */
  lemma StepBounds(p: real, f: real, total: real, w: real, lo: real, hi: real)
    requires p > 0.0 && lo <= f <= hi
    requires lo * total <= w <= hi * total
    ensures lo * (p + total) <= p * f + w <= hi * (p + total)
  {
    Scale(lo, f, p);
    Scale(f, hi, p);
    assert p * f == f * p;
    assert lo * (p + total) == lo * p + lo * total;
    assert hi * (p + total) == hi * p + hi * total;
  }

  /** Being a weighted mean, the consolidated factor lies between the smallest
      and the largest per-row factor. */
  lemma ConsolidatedWithinRowFactors(rows: seq<Row>, lo: real, hi: real)
    requires PositiveProduction(rows) && FactorsConsistent(rows)
    requires |rows| > 0
    requires forall i :: 0 <= i < |rows| ==> lo <= rows[i].factor <= hi
    ensures SumProduction(rows) > 0.0
    ensures lo <= ConsolidatedFactor(rows) <= hi
  {
    SumProductionAtLeastRow(rows, 0);
    ConsolidatedIsWeightedMean(rows);
    WeightedSumBounds(rows, lo, hi);
    QuotientBounds(WeightedFactorSum(rows), SumProduction(rows), lo, hi);
  }

  /** Dividing bounds of the form lo * p <= w <= hi * p by a positive p. */
  lemma QuotientBounds(w: real, p: real, lo: real, hi: real)
    requires p > 0.0
    requires lo * p <= w <= hi * p
    ensures lo <= w / p <= hi
  {
    var q := w / p;
    assert q * p == w;
    if q < lo {
      ScaleStrict(q, lo, p);
      assert false;
    }
    if q > hi {
      ScaleStrict(hi, q, p);
      assert false;
    }
  }

  lemma ScaleStrict(a: real, b: real, p: real)
    requires p > 0.0 && a < b
    ensures a * p < b * p
  {
    assert (b - a) * p > 0.0;
  }

  lemma Scale(a: real, b: real, p: real)
    requires p > 0.0 && a <= b
    ensures a * p <= b * p
  {
    assert (b - a) * p >= 0.0;
  }
}
