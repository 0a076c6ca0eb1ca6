/** The dataset selector: keep the source rows of one Month and Periode,
    take the Actual or the Budget column pair, derive each row's Clinker
    Factor, and the baseline consolidated factor of the selection. */
module Selection {
  import opened Wrappers
  import opened Table

  /** One row of the source sheet. Month and Periode are categorical values
      compared by equality. */
  datatype SourceRow = SourceRow(
    month: string, periode: string, cementType: string,
    actualConsumption: real, actualProduction: real,
    budgetConsumption: real, budgetProduction: real)

  predicate InPeriod(y: SourceRow, month: string, periode: string)
  {
    y.month == month && y.periode == periode
  }

  /** The rows of the chosen month and period, in source order. */
  function Filter(raw: seq<SourceRow>, month: string, periode: string): (kept: seq<SourceRow>)
    ensures forall y :: multiset(kept)[y] == if InPeriod(y, month, periode) then multiset(raw)[y] else 0
  {
    if raw == [] then []
    else
      var rest := Filter(raw[1..], month, periode);
      assert raw == [raw[0]] + raw[1..];
      if InPeriod(raw[0], month, periode) then [raw[0]] + rest else rest
  }

  /** The consumption column of the chosen data type: "Actual" picks the
      Actual pair, any other value the Budget pair. */
  function ChosenConsumption(y: SourceRow, dataType: string): real
  {
    if dataType == "Actual" then y.actualConsumption else y.budgetConsumption
  }

  function ChosenProduction(y: SourceRow, dataType: string): real
  {
    if dataType == "Actual" then y.actualProduction else y.budgetProduction
  }

  /** Every row of the selection produced cement in the chosen column, so its
      factor is a number. */
  predicate Measurable(raw: seq<SourceRow>, month: string, periode: string, dataType: string)
  {
    forall y :: y in raw && InPeriod(y, month, periode) ==> ChosenProduction(y, dataType) > 0.0
  }

  /** x is the working-table row that source row y yields for the data type. */
  predicate ProjectedFrom(x: Row, y: SourceRow, dataType: string)
  {
    && x.cementType == y.cementType
    && x.consumption == ChosenConsumption(y, dataType)
    && x.production == ChosenProduction(y, dataType)
    && x.production != 0.0
    && x.factor == ClinkerFactor(x.consumption, x.production)
  }

  function ProjectRow(y: SourceRow, dataType: string): (x: Row)
    requires ChosenProduction(y, dataType) != 0.0
    ensures ProjectedFrom(x, y, dataType)
  {
    var consumption, production := ChosenConsumption(y, dataType), ChosenProduction(y, dataType);
    Row(y.cementType, consumption, production, ClinkerFactor(consumption, production))
  }

  /** The working table of a selection. */
  function Select(raw: seq<SourceRow>, month: string, periode: string, dataType: string): (rows: seq<Row>)
    requires Measurable(raw, month, periode, dataType)
    ensures PositiveProduction(rows) && FactorsConsistent(rows)
    ensures |rows| == |Filter(raw, month, periode)|
    ensures forall i :: 0 <= i < |rows| ==> ProjectedFrom(rows[i], Filter(raw, month, periode)[i], dataType)
    ensures forall x :: x in rows ==>
      exists y :: y in raw && InPeriod(y, month, periode) && ProjectedFrom(x, y, dataType)
    ensures forall y :: y in raw && InPeriod(y, month, periode) ==>
      exists x :: x in rows && ProjectedFrom(x, y, dataType)
  {
    var kept := Filter(raw, month, periode);
    KeptRows(raw, month, periode);
    var rows := seq(|kept|, i requires 0 <= i < |kept| => ProjectRow(kept[i], dataType));
    ProjectionMatches(kept, rows, dataType);
    rows
  }

  /** A source row is kept exactly when it is of the chosen month and period. */
  lemma KeptRows(raw: seq<SourceRow>, month: string, periode: string)
    ensures forall y :: y in Filter(raw, month, periode) <==> y in raw && InPeriod(y, month, periode)
  {
    var kept := Filter(raw, month, periode);
    forall y ensures y in kept <==> y in raw && InPeriod(y, month, periode) {
      assert y in kept <==> multiset(kept)[y] > 0;
      assert y in raw <==> multiset(raw)[y] > 0;
    }
  }

  /** Row by row projection: every projected row comes from a kept row, and
      every kept row yields a projected row. */
  lemma ProjectionMatches(kept: seq<SourceRow>, rows: seq<Row>, dataType: string)
    requires |rows| == |kept|
    requires forall i :: 0 <= i < |kept| ==>
      ChosenProduction(kept[i], dataType) != 0.0 && rows[i] == ProjectRow(kept[i], dataType)
    ensures forall x :: x in rows ==> exists y :: y in kept && ProjectedFrom(x, y, dataType)
    ensures forall y :: y in kept ==> exists x :: x in rows && ProjectedFrom(x, y, dataType)
  {
    forall x | x in rows ensures exists y :: y in kept && ProjectedFrom(x, y, dataType) {
      var i :| 0 <= i < |rows| && rows[i] == x;
      assert ProjectedFrom(x, kept[i], dataType);
    }
    forall y | y in kept ensures exists x :: x in rows && ProjectedFrom(x, y, dataType) {
      var i :| 0 <= i < |kept| && kept[i] == y;
      assert ProjectedFrom(rows[i], y, dataType);
    }
  }

  /** The consolidated factor shown before any simulation. With no rows the
      script divides zero by zero; that not-a-number is None here. */
  function BaselineFactor(rows: seq<Row>): (cf: Option<real>)
    ensures rows == [] ==> cf == None
    ensures PositiveProduction(rows) && rows != [] ==> cf.Some?
    ensures cf.Some? ==> cf.value * SumProduction(rows) == SumConsumption(rows) * 100.0
  {
    var totalCement := SumProduction(rows);
    assert PositiveProduction(rows) && rows != [] ==> totalCement > 0.0 by {
      if PositiveProduction(rows) && rows != [] {
        SumProductionAtLeastRow(rows, 0);
      }
    }
    if totalCement == 0.0 then None else Some(ConsolidatedFactor(rows))
  }
}
