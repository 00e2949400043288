/** The cost optimizer: for fixed loads, height and materials, every width
    of a stepped grid becomes a candidate pillar, the predictor gives its
    feasibility and steel area, concrete and steel are priced, infeasible
    or doubtful candidates cost +infinity, and the candidates come back
    cheapest first. */
module Optimizer {
  import opened Common
  import opened FeatureEngineering
  import opened Predictor

  /** Mass of 1 cm² of steel over 1 m of bar, in kg (7850 kg/m³). */
  const SteelKgPerCm2M: real := 0.785
  /** A candidate whose feasibility probability is below this is penalized. */
  const MinProbability: real := 0.5

  /** A total cost: a number, or the `float('inf')` of a penalized row. */
  datatype Cost = Finite(amount: real) | Infinity

  /** The order `sort_values` uses: numbers ascending, infinity last. */
  predicate CostLe(a: Cost, b: Cost)
  {
    b.Infinity? || (a.Finite? && a.amount <= b.amount)
  }

  /** One row of the optimizer's frame: the batch prediction, the section
      and the three cost columns. */
  datatype OptRow = OptRow(
    prediction: BatchRow, largura: real, altura: real,
    custoConcreto: real, custoAco: real, custoTotal: Cost)

  // ---------------------------------------------------------------------
  // The width grid

  /** Python's `range(start, stop, step)` for a non-zero step. */
  function PyRange(start: int, stop: int, step: int): (r: seq<int>)
    requires step != 0
    ensures forall k :: 0 <= k < |r| ==> r[k] == start + k * step
    ensures forall k :: 0 <= k < |r| ==> (step > 0 ==> r[k] < stop) && (step < 0 ==> r[k] > stop)
    ensures |r| == 0 <==> (step > 0 && start >= stop) || (step < 0 && start <= stop)
    decreases if step > 0 then stop - start else start - stop
  {
    if (step > 0 && start < stop) || (step < 0 && start > stop) then
      var rest := PyRange(start + step, stop, step);
      forall k | 1 <= k < |rest| + 1
        ensures rest[k - 1] == start + k * step
      {
        assert step + (k - 1) * step == k * step;
      }
      var r := [start] + rest;
      assert forall k :: 1 <= k < |r| ==> r[k] == rest[k - 1];
      r
    else []
  }

  lemma MulMonotonic(d: int, a: int, b: int)
    requires d > 0 && a <= b
    ensures d * a <= d * b
  {
  }

  /** Euclidean division is determined by its bounds. */
  lemma DivUnique(x: int, d: int, q: int)
    requires d > 0 && d * q <= x < d * q + d
    ensures x / d == q && x % d == x - d * q
  {
    var q0 := x / d;
    assert x == d * q0 + x % d;
    if q0 > q {
      MulMonotonic(d, q + 1, q0);
      assert false;
    } else if q0 < q {
      MulMonotonic(d, q0 + 1, q);
      assert false;
    }
  }

  lemma DivShift(x: int, d: int)
    requires d > 0
    ensures (x + d) / d == x / d + 1 && (x + d) % d == x % d
  {
    var q := x / d;
    assert x == d * q + x % d;
    assert d * (q + 1) == d * q + d;
    DivUnique(x + d, d, q + 1);
  }

  lemma DivSmall(x: int, d: int)
    requires 0 <= x < d
    ensures x / d == 0 && x % d == x
  {
    DivUnique(x, d, 0);
  }

  /** For a positive step the range has ceil((stop - start) / step) elements. */
  lemma {:induction false} PyRangeLength(start: int, stop: int, step: int)
    requires step > 0
    ensures |PyRange(start, stop, step)| == if start < stop then (stop - start - 1) / step + 1 else 0
    decreases stop - start
  {
    if start < stop {
      PyRangeLength(start + step, stop, step);
      if start + step < stop {
        DivShift(stop - start - step - 1, step);
      } else {
        DivSmall(stop - start - 1, step);
      }
    }
  }

  /** For a positive step, x is in the range exactly when it lies in
      [start, stop) and is a whole number of steps away from start. */
  lemma {:induction false} PyRangeMembership(start: int, stop: int, step: int, x: int)
    requires step > 0
    ensures x in PyRange(start, stop, step) <==> start <= x < stop && (x - start) % step == 0
    decreases stop - start
  {
    if start < stop {
      var rest := PyRange(start + step, stop, step);
      assert PyRange(start, stop, step) == [start] + rest;
      PyRangeMembership(start + step, stop, step, x);
      if x == start {
        DivSmall(0, step);
      } else if x < start {
      } else if x < start + step {
        DivSmall(x - start, step);
        assert x !in rest;
      } else {
        DivShift(x - start - step, step);
      }
    }
  }

  /** The widths `range(min_largura, max_largura + 1, step)`, with the
      KeyError of the first absent constraint and the ValueError of a zero
      step. */
  function Grid(constraints: map<string, int>): (r: Result<seq<int>>)
    ensures "min_largura" !in constraints ==> r == Failure(MissingKey("min_largura"))
    ensures "min_largura" in constraints && "max_largura" !in constraints ==> r == Failure(MissingKey("max_largura"))
    ensures "min_largura" in constraints && "max_largura" in constraints && "step" !in constraints ==>
      r == Failure(MissingKey("step"))
    ensures r.Success? <==> "min_largura" in constraints && "max_largura" in constraints && "step" in constraints
                            && constraints["step"] != 0
    ensures r.Failure? && "step" in constraints && "min_largura" in constraints && "max_largura" in constraints ==>
      r.error == ZeroStep
  {
    if "min_largura" !in constraints then Failure(MissingKey("min_largura"))
    else if "max_largura" !in constraints then Failure(MissingKey("max_largura"))
    else if "step" !in constraints then Failure(MissingKey("step"))
    else if constraints["step"] == 0 then Failure(ZeroStep)
    else Success(PyRange(constraints["min_largura"], constraints["max_largura"] + 1, constraints["step"]))
  }

  /** With a positive step the grid starts at the minimum, climbs by the
      step, never passes the maximum, holds (max - min) / step + 1 widths
      when min <= max, and holds exactly the widths of [min, max] a whole
      number of steps above min. */
  lemma GridShape(constraints: map<string, int>)
    requires Grid(constraints).Success? && constraints["step"] > 0
    ensures var grid := Grid(constraints).value;
      var lo, hi, step := constraints["min_largura"], constraints["max_largura"], constraints["step"];
      && (forall k :: 0 <= k < |grid| ==> grid[k] == lo + k * step && grid[k] <= hi)
      && (forall k :: 0 <= k < |grid| - 1 ==> grid[k] < grid[k + 1])
      && |grid| == (if lo <= hi then (hi - lo) / step + 1 else 0)
      && (forall b :: b in grid <==> lo <= b <= hi && (b - lo) % step == 0)
  {
    var grid := Grid(constraints).value;
    var lo, hi, step := constraints["min_largura"], constraints["max_largura"], constraints["step"];
    PyRangeLength(lo, hi + 1, step);
    forall b
      ensures b in grid <==> lo <= b <= hi && (b - lo) % step == 0
    {
      PyRangeMembership(lo, hi + 1, step, b);
    }
  }

  /** The grid of the worked example: widths 20 to 50 in steps of 5. */
  lemma ExampleGrid()
    ensures Grid(map["min_largura" := 20, "max_largura" := 50, "step" := 5]) == Success([20, 25, 30, 35, 40, 45, 50])
  {
    var grid := PyRange(20, 51, 5);
    PyRangeLength(20, 51, 5);
    assert |grid| == 7;
    assert grid == [20, 25, 30, 35, 40, 45, 50];
  }

  // ---------------------------------------------------------------------
  // Candidates

  /** The candidate record of one width: the fixed parameters overridden
      by the loads, the width, the height of a square section unless a
      height is given, and a dummy steel area. */
  function MakeCandidate(fixedParams: Row, loads: Row, b: int): (c: Row)
    ensures c.Keys == fixedParams.Keys + loads.Keys + {"largura", "Altura", "As"}
    ensures c["largura"] == b as real && c["As"] == 0.0
    ensures "Altura" in fixedParams + loads ==> c["Altura"] == (fixedParams + loads)["Altura"]
    ensures "Altura" !in fixedParams + loads ==> c["Altura"] == b as real
    ensures forall k :: k in c && k != "largura" && k != "Altura" && k != "As" ==>
      c[k] == if k in loads then loads[k] else fixedParams[k]
  {
    var merged := fixedParams + loads;
    var withWidth := merged["largura" := b as real];
    var withHeight := if "Altura" !in withWidth then withWidth["Altura" := b as real] else withWidth;
    withHeight["As" := 0.0]
  }

  /** One candidate per width, in grid order. */
  function Candidates(fixedParams: Row, loads: Row, grid: seq<int>): (cs: seq<Row>)
    ensures |cs| == |grid|
    ensures forall i :: 0 <= i < |grid| ==> cs[i] == MakeCandidate(fixedParams, loads, grid[i])
  {
    seq(|grid|, i requires 0 <= i < |grid| => MakeCandidate(fixedParams, loads, grid[i]))
  }

  /** No division of the transform is by zero for any candidate of the grid. */
  predicate CandidatesAdmissible(fixedParams: Row, loads: Row, constraints: map<string, int>)
  {
    Grid(constraints).Success? ==>
      forall b | b in Grid(constraints).value :: Admissible(MakeCandidate(fixedParams, loads, b))
  }

  /** Rows that all have the same columns leave no cell of the frame empty. */
  lemma SameKeysDense(rows: seq<Row>)
    requires forall i :: 0 <= i < |rows| ==> rows[i].Keys == rows[0].Keys
    ensures NoMissingCells(rows)
  {
    forall column: string
      ensures Dense(rows, column)
    {
      if exists i :: 0 <= i < |rows| && column in rows[i] {
        var i :| 0 <= i < |rows| && column in rows[i];
        assert column in rows[0].Keys;
      }
    }
  }

  /** The candidates of a grid form a batch the predictor accepts. */
  lemma CandidatesBatch(fixedParams: Row, loads: Row, constraints: map<string, int>)
    requires CandidatesAdmissible(fixedParams, loads, constraints) && Grid(constraints).Success?
    ensures var cs := Candidates(fixedParams, loads, Grid(constraints).value);
      NoMissingCells(cs) && AllAdmissible(cs)
  {
    var grid := Grid(constraints).value;
    var cs := Candidates(fixedParams, loads, grid);
    if |cs| > 0 {
      SameKeysDense(cs);
    }
    forall i | 0 <= i < |cs|
      ensures Admissible(cs[i])
    {
      assert grid[i] in grid;
    }
  }

  // ---------------------------------------------------------------------
  // Costs

  /** Concrete cost: the volume b·h·L converted from cm³ to m³, times the
      price per m³. */
  function ConcreteCost(largura: real, altura: real, peDireito: real, pricePerM3: real): (cost: real)
    ensures cost * 1000000.0 == largura * altura * peDireito * pricePerM3
  {
    (largura / 100.0) * (altura / 100.0) * (peDireito / 100.0) * pricePerM3
  }

  /** Steel cost: the weight of As (cm²) over the clear height converted to
      m, at 0.785 kg per cm²·m, times the price per kg. */
  function SteelCost(asPredicted: real, peDireito: real, pricePerKg: real): (cost: real)
    ensures cost * 100.0 == asPredicted * peDireito * SteelKgPerCm2M * pricePerKg
    ensures asPredicted == 0.0 ==> cost == 0.0
  {
    asPredicted * (peDireito / 100.0) * SteelKgPerCm2M * pricePerKg
  }

  /** No steel, no steel cost; and costs are non-negative for non-negative
      quantities and prices. */
  lemma CostSigns(largura: real, altura: real, peDireito: real, asPredicted: real, pricePerM3: real, pricePerKg: real)
    requires largura >= 0.0 && altura >= 0.0 && peDireito >= 0.0 && pricePerM3 >= 0.0 && pricePerKg >= 0.0
    ensures SteelCost(0.0, peDireito, pricePerKg) == 0.0
    ensures ConcreteCost(largura, altura, peDireito, pricePerM3) >= 0.0
    ensures asPredicted >= 0.0 ==> SteelCost(asPredicted, peDireito, pricePerKg) >= 0.0
  {
    var v1 := (largura / 100.0) * (altura / 100.0);
    assert v1 >= 0.0;
    var v2 := v1 * (peDireito / 100.0);
    assert v2 >= 0.0;
    if asPredicted >= 0.0 {
      var w := asPredicted * (peDireito / 100.0);
      assert w >= 0.0;
      assert w * SteelKgPerCm2M >= 0.0;
    }
  }

  /** The row is infeasible by label or too doubtful by probability. */
  predicate Penalized(p: BatchRow)
  {
    p.isFeasible == 0 || p.probFeasible < MinProbability
  }

  /** A candidate's row with its section and its three cost columns. */
  function Priced(p: BatchRow, candidate: Row, peDireito: real, concretoM3: real, acoKg: real): (row: OptRow)
    requires "largura" in candidate && "Altura" in candidate
    ensures row.prediction == p && row.largura == candidate["largura"] && row.altura == candidate["Altura"]
    ensures row.custoConcreto * 1000000.0 == row.largura * row.altura * peDireito * concretoM3
    ensures row.custoAco * 100.0 == p.asPredicted * peDireito * SteelKgPerCm2M * acoKg
    ensures row.custoTotal == Finite(row.custoConcreto + row.custoAco)
  {
    var custoConcreto := ConcreteCost(candidate["largura"], candidate["Altura"], peDireito, concretoM3);
    var custoAco := SteelCost(p.asPredicted, peDireito, acoKg);
    OptRow(p, candidate["largura"], candidate["Altura"], custoConcreto, custoAco, Finite(custoConcreto + custoAco))
  }

  /** The `.loc` overwrite: a penalized row's total becomes infinite. */
  function Penalize(row: OptRow): (r: OptRow)
    ensures r.custoTotal == Infinity <==> Penalized(row.prediction) || row.custoTotal == Infinity
    ensures !Penalized(row.prediction) ==> r == row
    ensures r == row.(custoTotal := r.custoTotal)
  {
    if Penalized(row.prediction) then row.(custoTotal := Infinity) else row
  }

  /** A record the classifier does not label 1 has its steel area masked
      to zero, so its steel costs nothing: it is priced by its concrete. */
  lemma MaskedRowCostsNoSteel(predictor: PillarPredictor, record: Row, candidate: Row,
                              peDireito: real, concretoM3: real, acoKg: real)
    requires Admissible(record) && Features(record).Success?
    requires predictor.Masked(record).isFeasible != 1
    requires "largura" in candidate && "Altura" in candidate
    ensures Priced(predictor.Masked(record), candidate, peDireito, concretoM3, acoKg).custoAco == 0.0
    ensures Priced(predictor.Masked(record), candidate, peDireito, concretoM3, acoKg).custoTotal
         == Finite(ConcreteCost(candidate["largura"], candidate["Altura"], peDireito, concretoM3))
  {
  }

  /** The frame of a predicted batch with its cost columns, penalized.
      A row's total is infinite exactly when it is penalized, and the
      component costs are never overwritten. */
  function PricedTable(batch: seq<BatchRow>, candidates: seq<Row>, peDireito: real, concretoM3: real, acoKg: real)
    : (t: seq<OptRow>)
    requires |batch| == |candidates|
    requires forall i :: 0 <= i < |candidates| ==> "largura" in candidates[i] && "Altura" in candidates[i]
    ensures |t| == |batch|
    ensures forall i :: 0 <= i < |t| ==>
      && t[i].prediction == batch[i]
      && t[i].largura == candidates[i]["largura"] && t[i].altura == candidates[i]["Altura"]
      && t[i].custoConcreto == ConcreteCost(t[i].largura, t[i].altura, peDireito, concretoM3)
      && t[i].custoAco == SteelCost(batch[i].asPredicted, peDireito, acoKg)
      && (t[i].custoTotal == Infinity <==> Penalized(batch[i]))
      && (!Penalized(batch[i]) ==> t[i].custoTotal == Finite(t[i].custoConcreto + t[i].custoAco))
  {
    seq(|batch|, i requires 0 <= i < |batch| => Penalize(Priced(batch[i], candidates[i], peDireito, concretoM3, acoKg)))
  }

  /** The priced frame of a grid's candidates has each width and the
      height of its candidate, and the cost facts of every priced row. */
  lemma PricedCandidates(batch: seq<BatchRow>, fixedParams: Row, loads: Row, grid: seq<int>,
                         peDireito: real, concretoM3: real, acoKg: real)
    requires |batch| == |grid|
    ensures var t := PricedTable(batch, Candidates(fixedParams, loads, grid), peDireito, concretoM3, acoKg);
      var merged := fixedParams + loads;
      && |t| == |grid|
      && forall i :: 0 <= i < |t| ==>
        && t[i].largura == grid[i] as real
        && t[i].altura == (if "Altura" in merged then merged["Altura"] else grid[i] as real)
        && t[i].custoConcreto == ConcreteCost(t[i].largura, t[i].altura, peDireito, concretoM3)
        && t[i].custoAco == SteelCost(t[i].prediction.asPredicted, peDireito, acoKg)
        && (t[i].custoTotal == Infinity <==> Penalized(t[i].prediction))
        && (!Penalized(t[i].prediction) ==> t[i].custoTotal == Finite(t[i].custoConcreto + t[i].custoAco))
  {
    var cs := Candidates(fixedParams, loads, grid);
    var t := PricedTable(batch, cs, peDireito, concretoM3, acoKg);
    forall i | 0 <= i < |t|
      ensures t[i].largura == grid[i] as real
      ensures t[i].altura == (if "Altura" in fixedParams + loads then (fixedParams + loads)["Altura"] else grid[i] as real)
    {
      assert cs[i] == MakeCandidate(fixedParams, loads, grid[i]);
    }
  }

  /** The cost columns of a predicted batch: the clear height of the fixed
      parameters and both prices are looked up, in that order, and the
      priced frame is penalized. */
  function PricedFrame(batch: seq<BatchRow>, candidates: seq<Row>, fixedParams: Row, costs: Row)
    : (r: Result<seq<OptRow>>)
    requires |batch| == |candidates|
    requires forall i :: 0 <= i < |candidates| ==> "largura" in candidates[i] && "Altura" in candidates[i]
    ensures r.Success? <==> "PeDireito" in fixedParams && "concreto_m3" in costs && "aco_kg" in costs
    ensures "PeDireito" !in fixedParams ==> r == Failure(MissingKey("PeDireito"))
    ensures "PeDireito" in fixedParams && "concreto_m3" !in costs ==> r == Failure(MissingKey("concreto_m3"))
    ensures "PeDireito" in fixedParams && "concreto_m3" in costs && "aco_kg" !in costs ==> r == Failure(MissingKey("aco_kg"))
  {
    if "PeDireito" !in fixedParams then Failure(MissingKey("PeDireito"))
    else if "concreto_m3" !in costs then Failure(MissingKey("concreto_m3"))
    else if "aco_kg" !in costs then Failure(MissingKey("aco_kg"))
    else Success(PricedTable(batch, candidates, fixedParams["PeDireito"], costs["concreto_m3"], costs["aco_kg"]))
  }

  // ---------------------------------------------------------------------
  // Sorting

  predicate SortedByCost(s: seq<OptRow>)
  {
    forall i, j :: 0 <= i < j < |s| ==> CostLe(s[i].custoTotal, s[j].custoTotal)
  }

  function InsertByCost(x: OptRow, s: seq<OptRow>): (r: seq<OptRow>)
    requires SortedByCost(s)
    ensures SortedByCost(r)
    ensures multiset(r) == multiset(s) + multiset{x}
    ensures |r| == |s| + 1 && (r[0] == x || (|s| > 0 && r[0] == s[0]))
  {
    if |s| == 0 then [x]
    else if CostLe(x.custoTotal, s[0].custoTotal) then [x] + s
    else
      var rest := InsertByCost(x, s[1..]);
      assert s == [s[0]] + s[1..];
      var r := [s[0]] + rest;
      assert SortedByCost(r) by {
        forall i, j | 0 <= i < j < |r|
          ensures CostLe(r[i].custoTotal, r[j].custoTotal)
        {
          if i == 0 && j > 1 {
            assert CostLe(rest[0].custoTotal, rest[j - 1].custoTotal);
          }
        }
      }
      r
  }

  /** `sort_values('custo_total')`: the rows ascending by total cost. The
      order of rows of equal cost is not promised. */
  function SortByCost(s: seq<OptRow>): (r: seq<OptRow>)
    ensures SortedByCost(r)
    ensures multiset(r) == multiset(s)
  {
    if |s| == 0 then []
    else
      assert s == [s[0]] + s[1..];
      InsertByCost(s[0], SortByCost(s[1..]))
  }

  /** The first row of a sorted permutation is a cheapest row: finite
      whenever some row escaped the penalty, infinite when none did. */
  lemma FirstIsCheapest(sorted: seq<OptRow>, table: seq<OptRow>)
    requires SortedByCost(sorted) && multiset(sorted) == multiset(table) && |table| > 0
    ensures |sorted| == |table|
    ensures forall i :: 0 <= i < |table| ==> CostLe(sorted[0].custoTotal, table[i].custoTotal)
    ensures (exists i :: 0 <= i < |table| && table[i].custoTotal.Finite?) ==> sorted[0].custoTotal.Finite?
    ensures (forall i :: 0 <= i < |table| ==> table[i].custoTotal == Infinity) ==> sorted[0].custoTotal == Infinity
  {
    assert |sorted| == |multiset(sorted)| == |table|;
    forall i | 0 <= i < |table|
      ensures CostLe(sorted[0].custoTotal, table[i].custoTotal)
    {
      assert table[i] in multiset(table);
      assert table[i] in multiset(sorted);
      var j :| 0 <= j < |sorted| && sorted[j] == table[i];
      if j > 0 {
        assert CostLe(sorted[0].custoTotal, sorted[j].custoTotal);
      }
    }
    if forall i :: 0 <= i < |table| ==> table[i].custoTotal == Infinity {
      assert sorted[0] in multiset(table);
    }
  }

  // ---------------------------------------------------------------------
  // The optimizer

  class PillarOptimizer {
    const predictor: PillarPredictor

    constructor(predictor: PillarPredictor)
      ensures this.predictor == predictor
    {
      this.predictor := predictor;
    }

    /** The frame before sorting: every grid candidate predicted, priced and
        penalized, in grid order; or the first error raised on the way. */
    function CostTable(fixedParams: Row, loads: Row, constraints: map<string, int>, costs: Row): (r: Result<seq<OptRow>>)
      requires CandidatesAdmissible(fixedParams, loads, constraints)
      ensures Grid(constraints).Failure? ==> r == Failure(Grid(constraints).error)
      ensures r.Success? ==> Grid(constraints).Success? && |r.value| == |Grid(constraints).value| > 0
    {
      match Grid(constraints)
      case Failure(e) => Failure(e)
      case Success(grid) =>
        var candidates := Candidates(fixedParams, loads, grid);
        CandidatesBatch(fixedParams, loads, constraints);
        match predictor.PredictBatch(candidates)
        case Failure(e) => Failure(e)
        case Success(batch) => PricedFrame(batch, candidates, fixedParams, costs)
    }

    /** The errors, in the order the code raises them: a bad grid; an empty
        grid (the empty frame has no `largura`); a raw column or the cover
        missing from the merged parameters; then `PeDireito` among the
        fixed parameters, the concrete price and the steel price. */
    lemma CostTableErrors(fixedParams: Row, loads: Row, constraints: map<string, int>, costs: Row)
      requires CandidatesAdmissible(fixedParams, loads, constraints)
      ensures Grid(constraints).Failure? ==>
        CostTable(fixedParams, loads, constraints, costs) == Failure(Grid(constraints).error)
      ensures Grid(constraints).Success? && |Grid(constraints).value| == 0 ==>
        CostTable(fixedParams, loads, constraints, costs) == Failure(MissingKey("largura"))
      ensures Grid(constraints).Success? && |Grid(constraints).value| > 0 ==>
        var keys := fixedParams.Keys + loads.Keys + {"largura", "Altura", "As"};
        var r := CostTable(fixedParams, loads, constraints, costs);
        && (r.Success? <==> HasPillarColumns(keys) && "Cobrimento" in keys && "PeDireito" in fixedParams
                            && "concreto_m3" in costs && "aco_kg" in costs)
        && (!HasPillarColumns(keys) ==> r == Failure(MissingKey(MissingPillarColumn(keys).value)))
        && (HasPillarColumns(keys) && "Cobrimento" !in keys ==> r == Failure(MissingKeys({"Cobrimento"})))
        && (HasPillarColumns(keys) && "Cobrimento" in keys && "PeDireito" !in fixedParams ==>
              r == Failure(MissingKey("PeDireito")))
    {
      if Grid(constraints).Success? && |Grid(constraints).value| > 0 {
        var grid := Grid(constraints).value;
        var cs := Candidates(fixedParams, loads, grid);
        CandidatesBatch(fixedParams, loads, constraints);
        assert cs[0].Keys == fixedParams.Keys + loads.Keys + {"largura", "Altura", "As"};
        assert grid[0] in grid;
      }
    }

    /** A successful table is the priced and penalized frame of the
        predicted candidates, with every price present. */
    lemma CostTableIsPriced(fixedParams: Row, loads: Row, constraints: map<string, int>, costs: Row)
      requires CandidatesAdmissible(fixedParams, loads, constraints)
      requires CostTable(fixedParams, loads, constraints, costs).Success?
      ensures Grid(constraints).Success?
      ensures var cs := Candidates(fixedParams, loads, Grid(constraints).value);
        NoMissingCells(cs) && AllAdmissible(cs) && predictor.PredictBatch(cs).Success?
        && "PeDireito" in fixedParams && "concreto_m3" in costs && "aco_kg" in costs
        && CostTable(fixedParams, loads, constraints, costs).value
           == PricedTable(predictor.PredictBatch(cs).value, cs, fixedParams["PeDireito"], costs["concreto_m3"], costs["aco_kg"])
    {
      CandidatesBatch(fixedParams, loads, constraints);
    }

    /** Every row of the table carries the batch prediction of its grid
        width's candidate. */
    lemma CostTablePredictions(fixedParams: Row, loads: Row, constraints: map<string, int>, costs: Row)
      requires CandidatesAdmissible(fixedParams, loads, constraints)
      requires CostTable(fixedParams, loads, constraints, costs).Success?
      ensures var grid := Grid(constraints).value;
        var table := CostTable(fixedParams, loads, constraints, costs).value;
        && |table| == |grid|
        && forall i :: 0 <= i < |table| ==>
          && Admissible(MakeCandidate(fixedParams, loads, grid[i]))
          && Features(MakeCandidate(fixedParams, loads, grid[i])).Success?
          && table[i].prediction == predictor.Masked(MakeCandidate(fixedParams, loads, grid[i]))
    {
      CostTableIsPriced(fixedParams, loads, constraints, costs);
    }

    /** find_optimal_width: the candidates of the grid, cheapest first. */
    method FindOptimalWidth(fixedParams: Row, loads: Row, constraints: map<string, int>, costs: Row)
      returns (r: Result<seq<OptRow>>)
      requires CandidatesAdmissible(fixedParams, loads, constraints)
      ensures r.Failure? <==> CostTable(fixedParams, loads, constraints, costs).Failure?
      ensures r.Failure? ==> r.error == CostTable(fixedParams, loads, constraints, costs).error
      ensures r.Success? ==> SortedByCost(r.value)
      ensures r.Success? ==> multiset(r.value) == multiset(CostTable(fixedParams, loads, constraints, costs).value)
    {
      // 1. The width grid and its candidates.
      var larguras := Grid(constraints);
      if larguras.Failure? {
        return Failure(larguras.error);
      }
      var candidates := BuildCandidates(fixedParams, loads, larguras.value);

      // 2. The predictions of the whole batch.
      CandidatesBatch(fixedParams, loads, constraints);
      var results := predictor.PredictBatch(candidates);
      if results.Failure? {
        return Failure(results.error);
      }

      // 3-6. Costs, penalization and ordering.
      r := PriceAndSort(results.value, candidates, fixedParams, costs);
    }
  }

  /** The rest of find_optimal_width once the batch is predicted: the cost
      columns are assigned, penalized rows are overwritten in place, and
      the frame is sorted by total cost. */
  method PriceAndSort(batch: seq<BatchRow>, candidates: seq<Row>, fixedParams: Row, costs: Row)
    returns (r: Result<seq<OptRow>>)
    requires |batch| == |candidates|
    requires forall i :: 0 <= i < |candidates| ==> "largura" in candidates[i] && "Altura" in candidates[i]
    ensures r.Failure? <==> PricedFrame(batch, candidates, fixedParams, costs).Failure?
    ensures r.Failure? ==> r.error == PricedFrame(batch, candidates, fixedParams, costs).error
    ensures r.Success? ==> SortedByCost(r.value)
    ensures r.Success? ==> multiset(r.value) == multiset(PricedFrame(batch, candidates, fixedParams, costs).value)
  {
    if "PeDireito" !in fixedParams {
      return Failure(MissingKey("PeDireito"));
    }
    var peDireito := fixedParams["PeDireito"];
    if "concreto_m3" !in costs {
      return Failure(MissingKey("concreto_m3"));
    }
    if "aco_kg" !in costs {
      return Failure(MissingKey("aco_kg"));
    }
    var table := PriceColumns(batch, candidates, peDireito, costs["concreto_m3"], costs["aco_kg"]);
    PenalizeRows(table);
    assert table[..] == PricedTable(batch, candidates, peDireito, costs["concreto_m3"], costs["aco_kg"]);
    r := Success(SortByCost(table[..]));
  }

  /** The loop that merges the fixed parameters and the loads into one
      candidate per width. */
  method BuildCandidates(fixedParams: Row, loads: Row, grid: seq<int>) returns (candidates: seq<Row>)
    ensures candidates == Candidates(fixedParams, loads, grid)
  {
    candidates := [];
    for k := 0 to |grid|
      invariant |candidates| == k
      invariant forall i :: 0 <= i < k ==> candidates[i] == MakeCandidate(fixedParams, loads, grid[i])
    {
      var b := grid[k];
      var candidate := fixedParams + loads;
      candidate := candidate["largura" := b as real];
      if "Altura" !in candidate {
        candidate := candidate["Altura" := b as real];
      }
      candidate := candidate["As" := 0.0];
      candidates := candidates + [candidate];
    }
  }

  /** The frame of the batch with its section and cost columns assigned. */
  method PriceColumns(batch: seq<BatchRow>, candidates: seq<Row>, peDireito: real, concretoM3: real, acoKg: real)
    returns (table: array<OptRow>)
    requires |batch| == |candidates|
    requires forall i :: 0 <= i < |candidates| ==> "largura" in candidates[i] && "Altura" in candidates[i]
    ensures fresh(table) && table.Length == |batch|
    ensures forall j :: 0 <= j < |batch| ==> table[j] == Priced(batch[j], candidates[j], peDireito, concretoM3, acoKg)
  {
    table := new OptRow[|batch|];
    for i := 0 to |batch|
      invariant forall j :: 0 <= j < i ==> table[j] == Priced(batch[j], candidates[j], peDireito, concretoM3, acoKg)
    {
      table[i] := Priced(batch[i], candidates[i], peDireito, concretoM3, acoKg);
    }
  }

  /** `df.loc[mask, 'custo_total'] = inf`, row by row in place. */
  method PenalizeRows(table: array<OptRow>)
    modifies table
    ensures forall j :: 0 <= j < table.Length ==> table[j] == Penalize(old(table[j]))
  {
    for i := 0 to table.Length
      invariant forall j :: 0 <= j < i ==> table[j] == Penalize(old(table[j]))
      invariant forall j :: i <= j < table.Length ==> table[j] == old(table[j])
    {
      if table[i].prediction.isFeasible == 0 || table[i].prediction.probFeasible < MinProbability {
        table[i] := table[i].(custoTotal := Infinity);
      }
    }
  }
}
