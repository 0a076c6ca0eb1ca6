/** Mode B, "change the factor per cement type": the user gives a new Clinker
    Factor for some cement types; the first row of each such type takes that
    factor and the consumption it implies for the row's production. */
module TypeMode {
  import opened Wrappers
  import opened Table

  /** One entry of the override dictionary: a cement type and its new factor. */
  datatype Override = Override(cementType: string, factor: real)

  /** The overrides name types offered from the table itself. */
  predicate OverridesOffered(rows: seq<Row>, overrides: seq<Override>)
  {
    forall k :: 0 <= k < |overrides| ==> overrides[k].cementType in Types(rows)
  }

  /** Dictionary keys are distinct. */
  predicate DistinctTypes(overrides: seq<Override>)
  {
    forall k, l :: 0 <= k < l < |overrides| ==> overrides[k].cementType != overrides[l].cementType
  }

  /** The position of the first row of type t: the row the script's lookup of
      the first matching index selects. */
  function FirstIndexOf(rows: seq<Row>, t: string): (i: nat)
    requires t in Types(rows)
    ensures i < |rows| && rows[i].cementType == t
    ensures forall k :: 0 <= k < i ==> rows[k].cementType != t
  {
    if rows[0].cementType == t then 0
    else
      assert t in Types(rows[1..]) by {
        var k :| 0 <= k < |rows| && rows[k].cementType == t;
        assert rows[1..][k - 1].cementType == t;
      }
      1 + FirstIndexOf(rows[1..], t)
  }

  /** The factor the overrides give type t, if any; a later entry for the same
      type replaces an earlier one, as re-assigning a dictionary key does. */
  function OverrideFor(overrides: seq<Override>, t: string): (v: Option<real>)
    ensures v.Some? <==> exists k :: 0 <= k < |overrides| && overrides[k].cementType == t
    ensures v.Some? ==> exists k :: 0 <= k < |overrides| && overrides[k] == Override(t, v.value)
  {
    if overrides == [] then None
    else
      var last, init := overrides[|overrides| - 1], overrides[..|overrides| - 1];
      var rest := OverrideFor(init, t);
      assert forall k :: 0 <= k < |init| ==> init[k] == overrides[k];
      if last.cementType == t then Some(last.factor) else rest
  }

  /** A row given factor v: consumption becomes production times v over 100. */
  function OverriddenRow(row: Row, v: real): Row
  {
    Row(row.cementType, row.production * v / 100.0, row.production, v)
  }

  /** The table after the overrides: the first row of each overridden type is
      rewritten, every other row kept. */
  function ApplyOverrides(rows: seq<Row>, overrides: seq<Override>): seq<Row>
  {
    seq(|rows|, i requires 0 <= i < |rows| =>
      assert rows[i].cementType in Types(rows);
      match OverrideFor(overrides, rows[i].cementType)
      case Some(v) => if FirstIndexOf(rows, rows[i].cementType) == i then OverriddenRow(rows[i], v) else rows[i]
      case None => rows[i])
  }

  /** At least one override of a type from the table means total production is
      positive. */
  lemma {:induction false} TotalPositive(rows: seq<Row>, overrides: seq<Override>)
    requires PositiveProduction(rows) && OverridesOffered(rows, overrides) && |overrides| > 0
    ensures SumProduction(rows) > 0.0
  {
    assert overrides[0].cementType in Types(rows);
    var i :| 0 <= i < |rows| && rows[i].cementType == overrides[0].cementType;
    SumProductionAtLeastRow(rows, i);
  }

  /** The script's result: nothing when no type was given a new factor,
      otherwise the rewritten table and its consolidated factor over the
      unchanged total production. */
  function TypeSimulation(rows: seq<Row>, overrides: seq<Override>): Simulation
    requires PositiveProduction(rows) && OverridesOffered(rows, overrides)
  {
    if |overrides| == 0 then NotRun
    else
      TotalPositive(rows, overrides);
      var table := ApplyOverrides(rows, overrides);
      Simulated(table, SumConsumption(table) / SumProduction(rows) * 100.0)
  }

  /** With distinct keys, the factor found for an entry's type is that entry's. */
  lemma {:induction false} OverrideForDistinct(overrides: seq<Override>, k: int)
    requires DistinctTypes(overrides) && 0 <= k < |overrides|
    ensures OverrideFor(overrides, overrides[k].cementType) == Some(overrides[k].factor)
  {
    var n := |overrides|;
    if k < n - 1 {
      var init := overrides[..n - 1];
      assert init[k] == overrides[k];
      OverrideForDistinct(init, k);
    }
  }

  /** Override exactness: the first row of each overridden type ends with exactly
      the given factor and the consumption production * factor / 100; its type
      and production stay. */
  lemma {:induction false} OverrideExact(rows: seq<Row>, overrides: seq<Override>, k: int)
    requires OverridesOffered(rows, overrides) && DistinctTypes(overrides)
    requires 0 <= k < |overrides|
    ensures var t, f := overrides[k].cementType, overrides[k].factor;
      var i := FirstIndexOf(rows, t);
      && |ApplyOverrides(rows, overrides)| == |rows|
      && ApplyOverrides(rows, overrides)[i] == Row(t, rows[i].production * f / 100.0, rows[i].production, f)
  {
    var t := overrides[k].cementType;
    OverrideForDistinct(overrides, k);
    var i := FirstIndexOf(rows, t);
    assert ApplyOverrides(rows, overrides)[i] == OverriddenRow(rows[i], overrides[k].factor);
  }

  /** Only the first row of an overridden type is written: any row that is not
      such a first row comes out as it went in. */
  lemma {:induction false} OthersUntouched(rows: seq<Row>, overrides: seq<Override>, i: int)
    requires OverridesOffered(rows, overrides)
    requires 0 <= i < |rows|
    requires forall k :: 0 <= k < |overrides| ==> i != FirstIndexOf(rows, overrides[k].cementType)
    ensures |ApplyOverrides(rows, overrides)| == |rows|
    ensures ApplyOverrides(rows, overrides)[i] == rows[i]
  {
    var t := rows[i].cementType;
    assert t in Types(rows);
    if OverrideFor(overrides, t).Some? {
      var k :| 0 <= k < |overrides| && overrides[k].cementType == t;
      assert FirstIndexOf(rows, t) != i;
    }
  }

  /** Overrides change neither a row's type nor its production. */
  lemma {:induction false} OverridesKeepProduction(rows: seq<Row>, overrides: seq<Override>)
    ensures SameTypesAndProduction(ApplyOverrides(rows, overrides), rows)
    ensures SumProduction(ApplyOverrides(rows, overrides)) == SumProduction(rows)
  {
    SameProductionSameSum(ApplyOverrides(rows, overrides), rows);
  }

  lemma PercentOfPercent(p: real, v: real)
    requires p != 0.0
    ensures p * v / 100.0 / p * 100.0 == v
  {
    assert p * v / 100.0 / p == v / 100.0;
  }

  /** An overridden row's factor column still agrees with its consumption and
      production, so consistent tables stay consistent. */
  lemma {:induction false} OverridesKeepConsistency(rows: seq<Row>, overrides: seq<Override>)
    requires PositiveProduction(rows) && FactorsConsistent(rows)
    ensures FactorsConsistent(ApplyOverrides(rows, overrides))
  {
    var table := ApplyOverrides(rows, overrides);
    forall i | 0 <= i < |table|
      ensures table[i].production != 0.0 && table[i].factor == ClinkerFactor(table[i].consumption, table[i].production)
    {
      if table[i] != rows[i] {
        var v := table[i].factor;
        assert table[i] == OverriddenRow(rows[i], v);
        PercentOfPercent(rows[i].production, v);
      }
    }
  }

  /** The new consolidated factor is the consolidated factor of the rewritten
      table, and, as a production-weighted mean of its per-row factors, lies
      between their bounds. */
  lemma {:induction false} TypeSimulationFactor(rows: seq<Row>, overrides: seq<Override>, lo: real, hi: real)
    requires PositiveProduction(rows) && FactorsConsistent(rows) && OverridesOffered(rows, overrides)
    requires |overrides| > 0
    requires forall i :: 0 <= i < |rows| ==> lo <= ApplyOverrides(rows, overrides)[i].factor <= hi
    ensures TypeSimulation(rows, overrides).Simulated?
    ensures SumProduction(TypeSimulation(rows, overrides).table) > 0.0
    ensures TypeSimulation(rows, overrides).consolidatedFactor == ConsolidatedFactor(TypeSimulation(rows, overrides).table)
    ensures lo <= TypeSimulation(rows, overrides).consolidatedFactor <= hi
  {
    TotalPositive(rows, overrides);
    var table := ApplyOverrides(rows, overrides);
    OverridesKeepProduction(rows, overrides);
    OverridesKeepConsistency(rows, overrides);
    assert PositiveProduction(table);
    ConsolidatedWithinRowFactors(table, lo, hi);
  }

  /** Two tables with the same types row by row have the same first rows. */
  lemma {:induction false} FirstIndexSameTypes(a: seq<Row>, b: seq<Row>, t: string)
    requires SameTypesAndProduction(a, b) && t in Types(a)
    ensures t in Types(b) && FirstIndexOf(a, t) == FirstIndexOf(b, t)
  {
    SameTypesSameSet(a, b);
  }

  /** One more dictionary entry rewrites the first row of its type. */
  lemma {:induction false} ApplyOneMore(rows: seq<Row>, overrides: seq<Override>, k: int)
    requires 0 <= k < |overrides| && overrides[k].cementType in Types(rows)
    ensures var i := FirstIndexOf(rows, overrides[k].cementType);
      ApplyOverrides(rows, overrides[..k + 1])
        == ApplyOverrides(rows, overrides[..k])[i := OverriddenRow(rows[i], overrides[k].factor)]
  {
    var t, f := overrides[k].cementType, overrides[k].factor;
    var idx := FirstIndexOf(rows, t);
    var longer, shorter := overrides[..k + 1], overrides[..k];
    assert longer[..k] == shorter;
    var lhs := ApplyOverrides(rows, longer);
    var rhs := ApplyOverrides(rows, shorter)[idx := OverriddenRow(rows[idx], f)];
    forall i | 0 <= i < |rows| ensures lhs[i] == rhs[i] {
      var ti := rows[i].cementType;
      assert ti in Types(rows);
      if ti == t {
        assert OverrideFor(longer, ti) == Some(f);
      } else {
        assert OverrideFor(longer, ti) == OverrideFor(shorter, ti);
      }
    }
  }

  /** The script's loop over the dictionary: look up the first row of the type
      in the result table and overwrite its factor and consumption in place. */
  method OverrideInPlace(dfResult: array<Row>, overrides: seq<Override>)
    requires OverridesOffered(dfResult[..], overrides)
    modifies dfResult
    ensures dfResult[..] == ApplyOverrides(old(dfResult[..]), overrides)
  {
    ghost var before := dfResult[..];
    assert ApplyOverrides(before, overrides[..0]) == before;
    var k := 0;
    while k < |overrides|
      invariant 0 <= k <= |overrides|
      invariant dfResult[..] == ApplyOverrides(before, overrides[..k])
    {
      var semen, cfNew := overrides[k].cementType, overrides[k].factor;
      OverridesKeepProduction(before, overrides[..k]);
      FirstIndexSameTypes(before, dfResult[..], semen);
      ghost var current := dfResult[..];
      var idx := FirstIndexOf(dfResult[..], semen);
      var prod := dfResult[idx].production;
      dfResult[idx] := dfResult[idx].(factor := cfNew);
      dfResult[idx] := dfResult[idx].(consumption := prod * cfNew / 100.0);
      assert dfResult[idx] == OverriddenRow(before[idx], cfNew);
      assert dfResult[..] == current[idx := OverriddenRow(before[idx], cfNew)];
      ApplyOneMore(before, overrides, k);
      k := k + 1;
    }
    assert overrides[..k] == overrides;
  }

  /** Mode B as the script runs it: nothing without overrides; otherwise a copy
      of the table rewritten in place and its new consolidated factor. */
  method SimulateOverrides(df: seq<Row>, overrides: seq<Override>) returns (outcome: Simulation)
    requires PositiveProduction(df) && OverridesOffered(df, overrides)
    ensures outcome == TypeSimulation(df, overrides)
    ensures outcome == NotRun <==> |overrides| == 0
    ensures outcome.Simulated? ==> SameTypesAndProduction(outcome.table, df)
    ensures outcome.Simulated? ==> SumProduction(outcome.table) == SumProduction(df) > 0.0
    ensures outcome.Simulated? ==> outcome.consolidatedFactor == ConsolidatedFactor(outcome.table)
    ensures outcome.Simulated? && FactorsConsistent(df) ==> FactorsConsistent(outcome.table)
  {
    if |overrides| == 0 {
      return NotRun;
    }
    TotalPositive(df, overrides);
    var dfResult := new Row[|df|](i requires 0 <= i < |df| => df[i]);
    assert dfResult[..] == df;
    OverrideInPlace(dfResult, overrides);
    var table := dfResult[..];
    var totalCement := SumProduction(df);
    outcome := Simulated(table, SumConsumption(table) / totalCement * 100.0);
    OverridesKeepProduction(df, overrides);
    if FactorsConsistent(df) {
      OverridesKeepConsistency(df, overrides);
    }
  }
}
