/** Mode A, "change the consolidated factor": the user picks a target
    consolidated Clinker Factor and at least two cement types; the clinker the
    target needs beyond what the other types consume is shared among the picked
    types in proportion to their cement production. */
module TargetMode {
  import opened Table

  /** The picked types are offered from the table's own types. */
  predicate Offered(rows: seq<Row>, picked: seq<string>)
  {
    forall t :: t in picked ==> t in Types(rows)
  }

  /** Clinker of the rows whose type is not picked: they stay fixed. */
  function FixedClinker(rows: seq<Row>, picked: seq<string>): real
  {
    if rows == [] then 0.0
    else (if rows[0].cementType in picked then 0.0 else rows[0].consumption) + FixedClinker(rows[1..], picked)
  }

  /** Clinker of the rows whose type is picked. */
  function PickedClinker(rows: seq<Row>, picked: seq<string>): real
  {
    if rows == [] then 0.0
    else (if rows[0].cementType in picked then rows[0].consumption else 0.0) + PickedClinker(rows[1..], picked)
  }

  /** Cement production of the rows whose type is picked. */
  function PickedProduction(rows: seq<Row>, picked: seq<string>): real
  {
    if rows == [] then 0.0
    else (if rows[0].cementType in picked then rows[0].production else 0.0) + PickedProduction(rows[1..], picked)
  }

  /** The clinker the target factor asks of the whole production, less the
      clinker of the fixed rows: what the picked rows must consume together. */
  function ClinkerToShare(rows: seq<Row>, targetCf: real, picked: seq<string>): real
  {
    targetCf / 100.0 * SumProduction(rows) - FixedClinker(rows, picked)
  }

  /** A picked row's new consumption and factor, given the clinker to share and
      the picked production. */
  function SharedRow(row: Row, share: real, pickedProduction: real): Row
    requires pickedProduction != 0.0 && row.production != 0.0
  {
    var clinker := share * (row.production / pickedProduction);
    row.(consumption := clinker, factor := clinker / row.production * 100.0)
  }

  /** The table after sharing: picked rows rewritten, the others as they were. */
  function Shared(rows: seq<Row>, picked: seq<string>, share: real, pickedProduction: real): (r: seq<Row>)
    requires pickedProduction != 0.0 && PositiveProduction(rows)
  {
    seq(|rows|, i requires 0 <= i < |rows| =>
      if rows[i].cementType in picked then SharedRow(rows[i], share, pickedProduction) else rows[i])
  }

  /** The picked production is positive once one picked type is present. */
  lemma {:induction false} PickedProductionPositive(rows: seq<Row>, picked: seq<string>, i: int)
    requires PositiveProduction(rows)
    requires 0 <= i < |rows| && rows[i].cementType in picked
    ensures PickedProduction(rows, picked) >= rows[i].production > 0.0
  {
    PickedProductionNonNegative(rows[1..], picked);
    if i > 0 {
      PickedProductionPositive(rows[1..], picked, i - 1);
    }
  }

  lemma {:induction false} PickedProductionNonNegative(rows: seq<Row>, picked: seq<string>)
    requires PositiveProduction(rows)
    ensures PickedProduction(rows, picked) >= 0.0
  {
    if rows != [] {
      PickedProductionNonNegative(rows[1..], picked);
    }
  }

  /** With a type picked from the table, both divisors of the mode are positive. */
  lemma {:induction false} DivisorsPositive(rows: seq<Row>, picked: seq<string>)
    requires PositiveProduction(rows) && Offered(rows, picked) && |picked| > 0
    ensures PickedProduction(rows, picked) > 0.0 && SumProduction(rows) > 0.0
  {
    assert picked[0] in Types(rows);
    var i :| 0 <= i < |rows| && rows[i].cementType == picked[0];
    PickedProductionPositive(rows, picked, i);
    SumProductionAtLeastRow(rows, i);
  }

  /** The table after Mode A: the clinker to share split over the picked rows
      in proportion to their production. */
  function Reallocated(rows: seq<Row>, targetCf: real, picked: seq<string>): seq<Row>
    requires PositiveProduction(rows) && Offered(rows, picked) && |picked| > 0
  {
    DivisorsPositive(rows, picked);
    Shared(rows, picked, ClinkerToShare(rows, targetCf, picked), PickedProduction(rows, picked))
  }

  /** The script's result: a warning and no table for fewer than two picked
      types; otherwise the reallocated table and its consolidated factor over
      the unchanged total production. */
  function TargetSimulation(rows: seq<Row>, targetCf: real, picked: seq<string>): Simulation
    requires PositiveProduction(rows) && Offered(rows, picked)
  {
    if |picked| < 2 then NotRun
    else
      DivisorsPositive(rows, picked);
      var table := Reallocated(rows, targetCf, picked);
      Simulated(table, SumConsumption(table) / SumProduction(rows) * 100.0)
  }

  /** The total clinker splits into the fixed rows' and the picked rows'. */
  lemma {:induction false} ClinkerSplits(rows: seq<Row>, picked: seq<string>)
    ensures SumConsumption(rows) == FixedClinker(rows, picked) + PickedClinker(rows, picked)
  {
    if rows != [] {
      ClinkerSplits(rows[1..], picked);
    }
  }

  lemma {:induction false} SharedTail(rows: seq<Row>, picked: seq<string>, share: real, pickedProduction: real)
    requires pickedProduction != 0.0 && PositiveProduction(rows) && rows != []
    ensures Shared(rows, picked, share, pickedProduction)[1..] == Shared(rows[1..], picked, share, pickedProduction)
  {
  }

  /** Sharing leaves the fixed rows' clinker as it was. */
  lemma {:induction false} SharingKeepsFixedClinker(rows: seq<Row>, picked: seq<string>, share: real, pickedProduction: real)
    requires pickedProduction != 0.0 && PositiveProduction(rows)
    ensures FixedClinker(Shared(rows, picked, share, pickedProduction), picked) == FixedClinker(rows, picked)
  {
    if rows != [] {
      SharedTail(rows, picked, share, pickedProduction);
      SharingKeepsFixedClinker(rows[1..], picked, share, pickedProduction);
    }
  }

  /** A table whose picked rows consume c per unit of their production has
      picked clinker c times the picked production. */
  lemma {:induction false} PickedClinkerScales(table: seq<Row>, rows: seq<Row>, picked: seq<string>, c: real)
    requires SameTypesAndProduction(table, rows)
    requires forall i :: 0 <= i < |rows| && rows[i].cementType in picked ==>
      table[i].consumption == c * rows[i].production
    ensures PickedClinker(table, picked) == c * PickedProduction(rows, picked)
  {
    if rows != [] {
      PickedClinkerScales(table[1..], rows[1..], picked, c);
      Distribute(c, rows[0].production, PickedProduction(rows[1..], picked));
    }
  }

  lemma Distribute(c: real, a: real, b: real)
    ensures c * a + c * b == c * (a + b)
  {
  }

  /** The reallocated table is the shared table for the clinker to share and
      the picked production. */
  lemma {:induction false} ReallocatedIsShared(rows: seq<Row>, targetCf: real, picked: seq<string>)
    requires PositiveProduction(rows) && Offered(rows, picked) && |picked| > 0
    ensures PickedProduction(rows, picked) > 0.0
    ensures Reallocated(rows, targetCf, picked)
         == Shared(rows, picked, ClinkerToShare(rows, targetCf, picked), PickedProduction(rows, picked))
  {
    DivisorsPositive(rows, picked);
  }

  /** Sharing any amount over the picked production itself: the picked rows
      consume that amount, the fixed rows what they did. */
  lemma {:induction false} SharedClinker(rows: seq<Row>, picked: seq<string>, share: real)
    requires PositiveProduction(rows) && PickedProduction(rows, picked) != 0.0
    ensures var table := Shared(rows, picked, share, PickedProduction(rows, picked));
      && PickedClinker(table, picked) == share
      && FixedClinker(table, picked) == FixedClinker(rows, picked)
      && SumConsumption(table) == FixedClinker(rows, picked) + share
  {
    var table := Shared(rows, picked, share, PickedProduction(rows, picked));
    SharingPicked(rows, picked, share);
    SharingKeepsFixedClinker(rows, picked, share, PickedProduction(rows, picked));
    ClinkerSplits(table, picked);
  }

  /** After reallocation the picked rows consume exactly the clinker to share,
      so the whole table consumes what the target asks of total production. */
  lemma {:induction false} ReallocatedClinker(rows: seq<Row>, targetCf: real, picked: seq<string>)
    requires PositiveProduction(rows) && Offered(rows, picked) && |picked| > 0
    ensures PickedClinker(Reallocated(rows, targetCf, picked), picked) == ClinkerToShare(rows, targetCf, picked)
    ensures FixedClinker(Reallocated(rows, targetCf, picked), picked) == FixedClinker(rows, picked)
    ensures SumConsumption(Reallocated(rows, targetCf, picked)) == targetCf / 100.0 * SumProduction(rows)
  {
    ReallocatedIsShared(rows, targetCf, picked);
    var share := ClinkerToShare(rows, targetCf, picked);
    SharedClinker(rows, picked, share);
    assert SumConsumption(Reallocated(rows, targetCf, picked)) == FixedClinker(rows, picked) + share;
  }

  /** Headline property: with at least two picked types the mode runs, and the
      new consolidated factor is exactly the target. */
  lemma {:induction false} TargetReached(rows: seq<Row>, targetCf: real, picked: seq<string>)
    requires PositiveProduction(rows) && Offered(rows, picked) && |picked| >= 2
    ensures TargetSimulation(rows, targetCf, picked).Simulated?
    ensures TargetSimulation(rows, targetCf, picked).consolidatedFactor == targetCf
  {
    DivisorsPositive(rows, picked);
    ReallocatedClinker(rows, targetCf, picked);
    PercentRoundTrip(targetCf, SumProduction(rows));
  }

  /** Shared with the picked production itself as divisor, the picked rows
      consume exactly the clinker to share. */
  lemma {:induction false} SharingPicked(rows: seq<Row>, picked: seq<string>, share: real)
    requires PositiveProduction(rows) && PickedProduction(rows, picked) != 0.0
    ensures PickedClinker(Shared(rows, picked, share, PickedProduction(rows, picked)), picked) == share
  {
    var d := PickedProduction(rows, picked);
    SharedScales(rows, picked, share, d);
    PickedClinkerScales(Shared(rows, picked, share, d), rows, picked, share / d);
    WholeShare(share, d);
  }

  /** In a shared table each picked row consumes share / d per unit of its
      production. */
  lemma SharedScales(rows: seq<Row>, picked: seq<string>, share: real, d: real)
    requires PositiveProduction(rows) && d != 0.0
    ensures SameTypesAndProduction(Shared(rows, picked, share, d), rows)
    ensures forall i :: 0 <= i < |rows| && rows[i].cementType in picked ==>
      Shared(rows, picked, share, d)[i].consumption == share / d * rows[i].production
  {
    forall i | 0 <= i < |rows| && rows[i].cementType in picked
      ensures Shared(rows, picked, share, d)[i].consumption == share / d * rows[i].production
    {
      SharedAt(rows, picked, share, d, i);
      Regroup(share, rows[i].production, d);
    }
  }

  lemma Regroup(s: real, p: real, d: real)
    requires d != 0.0
    ensures s * (p / d) == s / d * p
  {
  }

  lemma WholeShare(s: real, d: real)
    requires d != 0.0
    ensures s / d * d == s
  {
  }

  lemma PercentRoundTrip(t: real, total: real)
    requires total != 0.0
    ensures t / 100.0 * total / total * 100.0 == t
  {
  }

  /** A picked row of the shared table, written out. */
  lemma {:induction false} SharedAt(rows: seq<Row>, picked: seq<string>, share: real, d: real, i: int)
    requires d != 0.0 && PositiveProduction(rows)
    requires 0 <= i < |rows| && rows[i].cementType in picked
    ensures |Shared(rows, picked, share, d)| == |rows|
    ensures Shared(rows, picked, share, d)[i] == SharedRow(rows[i], share, d)
  {
  }

  /** Sharing is proportional to production, for any amount shared. */
  lemma {:induction false} SharedProportional(rows: seq<Row>, picked: seq<string>, s: real, d: real, i: int, j: int)
    requires PositiveProduction(rows) && d != 0.0
    requires 0 <= i < |rows| && 0 <= j < |rows|
    requires rows[i].cementType in picked && rows[j].cementType in picked
    ensures var table := Shared(rows, picked, s, d);
      table[i].consumption * rows[j].production == table[j].consumption * rows[i].production
  {
    SharedAt(rows, picked, s, d, i);
    SharedAt(rows, picked, s, d, j);
    CrossRatio(s, rows[i].production, rows[j].production, d);
  }

  /** Allocation is proportional: any two picked rows get clinker in the ratio
      of their production. */
  lemma {:induction false} Proportional(rows: seq<Row>, targetCf: real, picked: seq<string>, i: int, j: int)
    requires PositiveProduction(rows) && Offered(rows, picked) && |picked| > 0
    requires 0 <= i < |rows| && 0 <= j < |rows|
    requires rows[i].cementType in picked && rows[j].cementType in picked
    ensures var table := Reallocated(rows, targetCf, picked);
      |table| == |rows| &&
      table[i].consumption * rows[j].production == table[j].consumption * rows[i].production
  {
    var s, d := ClinkerToShare(rows, targetCf, picked), PickedProduction(rows, picked);
    assert Reallocated(rows, targetCf, picked) == Shared(rows, picked, s, d) by {
      ReallocatedIsShared(rows, targetCf, picked);
    }
    SharedProportional(rows, picked, s, d, i, j);
  }

  lemma CrossRatio(s: real, a: real, b: real, d: real)
    requires d != 0.0
    ensures s * (a / d) * b == s * (b / d) * a
  {
    assert a / d * b == b / d * a;
  }

  /** Every picked row of a shared table has the factor share / d * 100. */
  lemma {:induction false} SharedFactor(rows: seq<Row>, picked: seq<string>, s: real, d: real, i: int)
    requires PositiveProduction(rows) && d != 0.0
    requires 0 <= i < |rows| && rows[i].cementType in picked
    ensures Shared(rows, picked, s, d)[i].factor == s / d * 100.0
  {
    SharedAt(rows, picked, s, d, i);
    ShareFactor(s, rows[i].production, d);
  }

  /** Every picked row ends with the same factor: the clinker to share over the
      picked production, in percent. */
  lemma {:induction false} UniformPickedFactor(rows: seq<Row>, targetCf: real, picked: seq<string>, i: int)
    requires PositiveProduction(rows) && Offered(rows, picked) && |picked| > 0
    requires 0 <= i < |rows| && rows[i].cementType in picked
    ensures PickedProduction(rows, picked) > 0.0
    ensures Reallocated(rows, targetCf, picked)[i].factor
        == ClinkerToShare(rows, targetCf, picked) / PickedProduction(rows, picked) * 100.0
  {
    ReallocatedIsShared(rows, targetCf, picked);
    SharedFactor(rows, picked, ClinkerToShare(rows, targetCf, picked), PickedProduction(rows, picked), i);
  }

  lemma ShareFactor(s: real, p: real, d: real)
    requires p != 0.0 && d != 0.0
    ensures s * (p / d) / p * 100.0 == s / d * 100.0
  {
    assert s * (p / d) / p == s / d;
  }

  /** A negative amount to share gives every picked row a negative consumption. */
  lemma {:induction false} SharedNegative(rows: seq<Row>, picked: seq<string>, s: real, d: real, i: int)
    requires PositiveProduction(rows) && d > 0.0 && s < 0.0
    requires 0 <= i < |rows| && rows[i].cementType in picked
    ensures Shared(rows, picked, s, d)[i].consumption < 0.0
  {
    SharedAt(rows, picked, s, d, i);
    NegativeShare(s, rows[i].production, d);
  }

  /** Nothing is clamped: a target below what the fixed rows already consume
      drives every picked row's consumption below zero. */
  lemma {:induction false} UnclampedBelowFixed(rows: seq<Row>, targetCf: real, picked: seq<string>, i: int)
    requires PositiveProduction(rows) && Offered(rows, picked) && |picked| > 0
    requires 0 <= i < |rows| && rows[i].cementType in picked
    requires targetCf / 100.0 * SumProduction(rows) < FixedClinker(rows, picked)
    ensures Reallocated(rows, targetCf, picked)[i].consumption < 0.0
  {
    ReallocatedIsShared(rows, targetCf, picked);
    SharedNegative(rows, picked, ClinkerToShare(rows, targetCf, picked), PickedProduction(rows, picked), i);
  }

  lemma NegativeShare(s: real, p: real, d: real)
    requires s < 0.0 && p > 0.0 && d > 0.0
    ensures s * (p / d) < 0.0
  {
    assert p / d > 0.0;
  }

  /** The script's loop over the picked rows of the copied table: each one's
      consumption and then its factor are overwritten in place. */
  method ShareInPlace(dfNew: array<Row>, picked: seq<string>, clinkerToShare: real, totalProdPicked: real)
    requires totalProdPicked != 0.0 && PositiveProduction(dfNew[..])
    modifies dfNew
    ensures dfNew[..] == Shared(old(dfNew[..]), picked, clinkerToShare, totalProdPicked)
  {
    ghost var before := dfNew[..];
    ghost var spec := Shared(before, picked, clinkerToShare, totalProdPicked);
    var idx := 0;
    while idx < dfNew.Length
      invariant 0 <= idx <= dfNew.Length
      invariant forall k :: 0 <= k < idx ==> dfNew[k] == spec[k]
      invariant forall k :: idx <= k < dfNew.Length ==> dfNew[k] == before[k]
    {
      if dfNew[idx].cementType in picked {
        var prod := dfNew[idx].production;
        var clinkerNew := clinkerToShare * (prod / totalProdPicked);
        dfNew[idx] := dfNew[idx].(consumption := clinkerNew);
        dfNew[idx] := dfNew[idx].(factor := clinkerNew / prod * 100.0);
      }
      idx := idx + 1;
    }
    assert dfNew[..] == spec;
  }

  /** Mode A as the script runs it: the guard, the sums, a copy of the table
      reallocated in place, and the new consolidated factor. */
  method SimulateTarget(df: seq<Row>, targetCf: real, picked: seq<string>) returns (outcome: Simulation)
    requires PositiveProduction(df) && Offered(df, picked)
    ensures outcome == TargetSimulation(df, targetCf, picked)
    ensures outcome == NotRun <==> |picked| < 2
    ensures outcome.Simulated? ==> outcome.consolidatedFactor == targetCf
    ensures outcome.Simulated? ==> |outcome.table| == |df|
    ensures outcome.Simulated? ==>
      forall i :: 0 <= i < |df| && df[i].cementType !in picked ==> outcome.table[i] == df[i]
    ensures outcome.Simulated? ==> SameTypesAndProduction(outcome.table, df)
    ensures outcome.Simulated? && FactorsConsistent(df) ==> FactorsConsistent(outcome.table)
  {
    if |picked| < 2 {
      return NotRun;
    }
    DivisorsPositive(df, picked);
    var dfNew := new Row[|df|](i requires 0 <= i < |df| => df[i]);
    var clinkerFixed := FixedClinker(df, picked);
    var totalProdPicked := PickedProduction(df, picked);
    var totalCement := SumProduction(df);
    var clinkerTotalTarget := targetCf / 100.0 * totalCement;
    var clinkerToShare := clinkerTotalTarget - clinkerFixed;
    assert dfNew[..] == df;
    ShareInPlace(dfNew, picked, clinkerToShare, totalProdPicked);
    var table := dfNew[..];
    assert table == Reallocated(df, targetCf, picked) by {
      assert clinkerToShare == ClinkerToShare(df, targetCf, picked);
      ReallocatedIsShared(df, targetCf, picked);
    }
    outcome := Simulated(table, SumConsumption(table) / totalCement * 100.0);
    TargetReached(df, targetCf, picked);
    ReallocatedKeeps(df, targetCf, picked);
  }

  /** Reallocation rewrites only picked rows, never a type or a production, and
      keeps every factor consistent with its row. */
  lemma {:induction false} ReallocatedKeeps(rows: seq<Row>, targetCf: real, picked: seq<string>)
    requires PositiveProduction(rows) && Offered(rows, picked) && |picked| > 0
    ensures var table := Reallocated(rows, targetCf, picked);
      && SameTypesAndProduction(table, rows)
      && (forall i :: 0 <= i < |rows| && rows[i].cementType !in picked ==> table[i] == rows[i])
      && (FactorsConsistent(rows) ==> FactorsConsistent(table))
  {
    ReallocatedIsShared(rows, targetCf, picked);
  }
}
