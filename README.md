# PILAR_CALCULADORA core, modelled in Dafny

PILAR_CALCULADORA estimates the longitudinal steel of reinforced-concrete
pillars with two machine-learned models and picks the cheapest section
width for given loads. This project models its three core steps.

- **Feature transform** (`feature_engineering.dfy`, module
  `FeatureEngineering`). A raw pillar record has:
  - the width `largura` and height `Altura`;
  - the clear height `PeDireito` and the strength `fck`;
  - the axial force and both moments at the top and base.

  The transform turns it into:
  - the mean loads and load differences;
  - the area `Ac`;
  - the reduced force `nu` and moments `mu_x`/`mu_y`;
  - the slenderness values, eccentricities and moment ratios;
  - the second-order indices and the aspect ratio.

  This module also has the steel-ratio target `rho = As / Ac` and the
  selection of the training columns. Each formula column has its own function whose
  contract inverts its division or gives its signs and bounds. Further properties (signs, the square
  section, a worked record) are in `feature_properties.dfy` (module `FeatureProperties`).
- **Two-stage predictor** (`predictor.dfy`, module `Predictor`).
  - A classifier decides feasibility.
  - In single mode the regressor runs only when the label is not 0. Its
    steel ratio times `Ac` is the predicted steel area, compared with a
    known `As` when one is given.
  - In batch mode the regressor runs on every row, and rows whose label is
    not 1 are masked to zero.
  - The two models are opaque functions of the feature vector.
- **Cost optimizer** (`optimizer.dfy`, module `Optimizer`).
  - Python's `range` builds the width grid, and a loop builds one merged
    candidate per width. The batch is predicted once.
  - Concrete and steel are priced per row. The total of a row that is
    infeasible, or whose feasibility probability is below 0.5, is
    overwritten in place with `+inf`.
  - The frame is sorted by total cost.

Shared vocabulary is in `common.dfy` (module `Common`):
- rows are `map<string, real>`;
- a `KeyError` is `MissingKey`, or `MissingKeys` for the set of columns
  pandas reports;
- the `ValueError` of a zero `range` step is `ZeroStep`.

The pandas transform works column by column, and each output cell depends
only on its own row. It is therefore modelled on one row at a time.

Two parts are imperative in the source, and the model keeps them that way:
- `PillarPredictor.PredictSingle` builds its result dictionary step by step;
- the optimizer builds the candidates in a loop (`BuildCandidates`),
  assigns the cost columns (`PriceColumns`), and penalizes rows in place
  on an array (`PenalizeRows`).

Each method is proved against a specification function (`Candidates`,
`PricedTable`, `PricedFrame`, `CostTable`). The properties are then proved
about those functions.

Where the system's documented behaviour and its code disagree, the
model follows the code:
- **Empty batch.** An empty batch (or an empty grid) fails with the
  `KeyError` for `largura`, raised by the transform on a frame without
  columns. It is not a dedicated validation error.
- **Sort stability.** The ranking uses pandas' default sort, which is not
  stable. Only "ascending by cost, and a permutation of the frame" is
  promised; the input order of ties is not.
- **Label tests.** Single mode tests `label == 0`, while batch mode tests
  `label == 1`. The two modes agree for labels 0 and 1, and that is all
  `PredictSingle` promises.
- **All candidates penalized.** A penalized row can have label 1 with a
  probability below 0.5. When every candidate is penalized, the first row
  costs `+inf` (`FirstIsCheapest`), but its label need not be 0.
- **Cost signs.** Costs are non-negative only for non-negative
  quantities and prices (`CostSigns`). A negative predicted steel area
  gives a negative steel cost.
- **Clear height in the cost.** The cost uses `PeDireito` from the fixed
  parameters, even when the loads dictionary overrides it for the
  models.

## Model

| member | source | states |
|---|---|---|
| Common.GetOrZero | src/predictor.py:57 | `d.get(key, 0)`: the row's value when the key is present, 0 otherwise |
| FeatureEngineering.AbsMax | src/feature_engineering.py:56-58 | the worst-case magnitude is at least both absolute values, is one of them, and is non-negative |
| FeatureEngineering.Fcd | src/feature_engineering.py:61-65 | the design strength is non-zero for non-zero fck and positive for positive fck |
| FeatureEngineering.Area | src/feature_engineering.py:67-68 | `Ac` is non-zero for a computable record and positive for positive sides |
| FeatureEngineering.Nu | src/feature_engineering.py:70-73 | nu times `Ac`·fcd is the factored worst-case axial force (1.4 times the larger magnitude) |
| FeatureEngineering.ReducedMoment | src/feature_engineering.py:75-83 | a reduced moment times `Ac`·lever·fcd is the factored moment converted from kN·m to kN·cm |
| FeatureEngineering.MuX | src/feature_engineering.py:76-80 | mu_x times `Ac`·`Altura`·fcd is the factored worst-case X moment in kN·cm: the lever arm is `Altura` |
| FeatureEngineering.MuY | src/feature_engineering.py:77-83 | mu_y times `Ac`·`largura`·fcd is the factored worst-case Y moment in kN·cm: the lever arm is `largura` |
| FeatureEngineering.Slenderness | src/feature_engineering.py:85-87 | the slenderness times its side is 3.46 times the clear height |
| FeatureEngineering.Eccentricity | src/feature_engineering.py:92-94 | 0 for a zero force; otherwise times the force gives back the moment; non-negative for non-negative moment and force |
| FeatureEngineering.MomentRatio | src/feature_engineering.py:100-104 | the ratio times (base + 1e-6) gives back the top moment |
| FeatureEngineering.SecondOrderIndex | src/feature_engineering.py:106-109 | the index has the sign of nu (non-negative when nu is, non-positive when nu is), and is 0 when nu or the slenderness is 0 |
| FeatureEngineering.AspectRatio | src/feature_engineering.py:111-113 | for positive sides the ratio is at least 1, and is exactly 1 iff the section is square |
| FeatureEngineering.Engineer | src/feature_engineering.py:44-68 | `Ac` is width times height; mean minus half the difference gives the top load and mean plus half gives the base load, for N, Mx and My |
| FeatureEngineering.MissingPillarColumn | src/feature_engineering.py:32-42 | none exactly when all ten raw columns are present; otherwise an absent raw column such that every column read before it is present, so it is the first missing in read order |
| FeatureEngineering.ReadPillar | src/feature_engineering.py:32-42 | succeeds exactly when every raw column is present, else fails with the first missing one; on success every field of the record is its own column (`largura`, `Altura`, `PeDireito`, `fck`, and N, Mx, My at top and base); an admissible row gives a computable record |
| FeatureEngineering.CreateEngineeredFeatures | src/feature_engineering.py:26-125 | succeeds exactly when every raw column is present, with the first missing one as the error; on success `Ac` is width times height and non-zero, and `N_med`, `Mx_med`, `My_med` are the means of the row's top and base loads and `dN`, `dMx`, `dMy` are base minus top |
| FeatureEngineering.CreateTargetVariable | src/feature_engineering.py:128-143 | reads `As` then `Ac` from the row: `KeyError('As')` exactly when `As` is absent, `KeyError('Ac')` when only `Ac` is; succeeds exactly when both exist, and then rho times `Ac` gives back `As` |
| FeatureEngineering.TargetAfterTransform | src/feature_engineering.py:67-68 | once the transform has written `Ac` into a row with `As`, the target succeeds and rho times width times height gives back `As` |
| FeatureEngineering.WithoutAc | src/feature_engineering.py:152 | keeps exactly the columns other than `Ac` and never grows the list |
| FeatureEngineering.PrepareFeatures | src/feature_engineering.py:146-170 | succeeds exactly when every clean feature and `rho` exist; the result has no `Ac` and only existing columns; the error names exactly the missing clean features (non-empty), else `rho` |
| FeatureEngineering.WithoutAcAppend | src/feature_engineering.py:152 | filtering distributes over concatenation, so it keeps the surviving columns in order |
| FeatureEngineering.WithoutAcIdentity | src/feature_engineering.py:152 | a list without `Ac` passes through unchanged |
| FeatureEngineering.ConfiguredFeaturesKept | src/config.py:34-63 | the configured feature list contains no `Ac`, so all of it is used, in order |
| FeatureProperties.DimensionlessSigns | src/feature_engineering.py:67-83 | for positive sides and fck, `Ac` is positive and nu, mu_x and mu_y are non-negative |
| FeatureProperties.SquareSection | src/feature_engineering.py:76-113 | a square section has equal slenderness and second-order indices, aspect ratio 1, and mu_x = mu_y when the worst-case moments are equal |
| FeatureProperties.SquareAspect | src/feature_engineering.py:113 | equal sides give aspect ratio exactly 1 |
| FeatureProperties.SquareMoments | src/feature_engineering.py:76-83 | equal sides and equal worst-case moments give mu_x = mu_y |
| FeatureProperties.EngineeredColumns | src/feature_engineering.py:70-113 | each derived column holds its own quantity: nu, mu, lambda, e, the top-over-base moment ratio of its own axis, the second-order index of its own lambda, and the aspect ratio |
| FeatureProperties.WorkedRecord | src/feature_engineering.py:67-87 | the 30 x 95 record with fck 50 and clear height 235 has `Ac` 2850 and the exact nu, mu_x, mu_y, lambda and aspect values |
| Predictor.Features | src/predictor.py:44-47 | prepares a record exactly when the raw columns and `Cobrimento` exist; the first missing raw column is the error, then `['Cobrimento']`; `Ac` is width times height |
| Predictor.ConfiguredColumnsAvailable | src/config.py:34-63 | every configured feature is a raw column, a column the transform derives, or `Cobrimento` |
| Predictor.CoverComesFromTheRecord | src/predictor.py:44-47 | `Cobrimento` is a configured feature that neither the raw columns nor the transform supply, so it must come from the record itself |
| Predictor.FeaturesFollowTransform | src/predictor.py:122-125 | preparation fails with the transform's error, and otherwise carries the transform's `Ac` and derived columns |
| Predictor.DenseFeatures | src/predictor.py:89-92 | in a batch with no missing cells, every record prepares or fails as the first one does |
| Predictor.PillarPredictor.constructor | src/predictor.py:23-35 | the predictor holds the two given models |
| Predictor.PillarPredictor.PredictSingle | src/predictor.py:37-82 | status is Feasible iff the label is 1. Label 0 gives the infeasible record with zero steel and the message. Any other label gives rho and `As` = rho·`Ac`. The error fields exist iff the label is non-zero and `As` > 0, and the percentage times `As` is 100 times the error. It agrees with the batch row for labels 0 and 1 |
| Predictor.PillarPredictor.Masked | src/predictor.py:94-114 | a batch row has the label and probability; rho and `As` = rho·`Ac` when the label is 1, and 0 otherwise; `As_actual` defaults to 0 |
| Predictor.PillarPredictor.PredictBatch | src/predictor.py:84-120 | an empty batch fails on `largura`; otherwise it succeeds iff every record prepares, fails with the first record's error, and holds one masked row per record |
| Predictor.PillarPredictor.SingletonBatch | src/predictor.py:84-116 | a batch of one record fails as its preparation does, or holds its masked row |
| Predictor.PillarPredictor.BatchRowIndependent | src/predictor.py:94-114 | row i of a batch equals the batch of record i alone |
| Optimizer.PyRange | src/optimizer.py:36-38 | element k is start + k·step and lies before stop; the range is empty exactly when start is already past stop in the step's direction |
| Optimizer.PyRangeLength | src/optimizer.py:36-38 | a positive-step range has (stop - start - 1) / step + 1 elements when start < stop, and none otherwise |
| Optimizer.PyRangeMembership | src/optimizer.py:36-38 | x is in a positive-step range iff start <= x < stop and x - start is a multiple of the step |
| Optimizer.Grid | src/optimizer.py:36-38 | `KeyError` for `min_largura`, then `max_largura`, then `step`; `ValueError` for a zero step; success otherwise |
| Optimizer.GridShape | src/optimizer.py:36-38 | for a positive step the grid climbs by step from the minimum, never passes the maximum, has floor((max-min)/step)+1 widths, and holds exactly those widths |
| Optimizer.ExampleGrid | src/optimizer.py:36-38 | min 20, max 50, step 5 gives exactly the seven widths 20 to 50 |
| Optimizer.MakeCandidate | src/optimizer.py:43-54 | the candidate has the merged keys plus width, height and `As`; the width is b and `As` is 0; the height is the given one, or b; other keys take the loads over the fixed parameters |
| Optimizer.Candidates | src/optimizer.py:40-55 | one candidate per width, in grid order |
| Optimizer.BuildCandidates | src/optimizer.py:40-55 | the loop's list equals the candidates of the grid |
| Optimizer.SameKeysDense | src/optimizer.py:59 | records that all have the same columns leave no cell of the frame empty |
| Optimizer.CandidatesBatch | src/optimizer.py:40-59 | the candidates of a grid form a batch the predictor accepts |
| Optimizer.ConcreteCost | src/optimizer.py:69-72 | the concrete cost times 10^6 is the price times the volume in cm³ |
| Optimizer.SteelCost | src/optimizer.py:74-79 | the steel cost times 100 is `As` times the clear height times 0.785 kg per cm²·m times the price; no steel costs nothing |
| Optimizer.CostSigns | src/optimizer.py:67-79 | zero steel costs nothing; non-negative quantities and prices give non-negative costs |
| Optimizer.MaskedRowCostsNoSteel | src/optimizer.py:78-84 | a candidate whose label is not 1 has its steel masked to 0, so it costs no steel and its total is its concrete |
| Optimizer.Priced | src/optimizer.py:62-84 | the priced row keeps its prediction and takes its candidate's width and height; its concrete and steel costs satisfy the volume and weight equations, and its total is their finite sum |
| Optimizer.Penalize | src/optimizer.py:86-100 | the total becomes `+inf` exactly when the row is infeasible or below probability 0.5 (or already `+inf`); a row that is not penalized is unchanged, and no other column ever changes |
| Optimizer.PricedTable | src/optimizer.py:62-100 | each row keeps its prediction and its candidate's section, and has the concrete and steel costs. The total is `+inf` iff the row is penalized, and the sum otherwise |
| Optimizer.PricedCandidates | src/optimizer.py:62-84 | each priced row of a grid has its width, the given height or its width, and the cost facts |
| Optimizer.PricedFrame | src/optimizer.py:65-84 | `KeyError` for `PeDireito` in the fixed parameters, then `concreto_m3`, then `aco_kg`; success exactly when all three exist |
| Optimizer.InsertByCost | src/optimizer.py:103 | inserting into a cost-sorted frame keeps it sorted and adds exactly the new row |
| Optimizer.SortByCost | src/optimizer.py:103 | the result is sorted ascending by total cost, with `+inf` last, and is a permutation of the input |
| Optimizer.FirstIsCheapest | src/optimizer.py:100-103 | the first row of the ranking is no costlier than any row; it is finite when any row escaped the penalty, and `+inf` when none did |
| Optimizer.PillarOptimizer.constructor | src/optimizer.py:15-16 | the optimizer holds the given predictor |
| Optimizer.PillarOptimizer.CostTable | src/optimizer.py:36-100 | a grid error is the table's error; a successful table has one row per width of a non-empty grid |
| Optimizer.PillarOptimizer.CostTableErrors | src/optimizer.py:36-84 | errors come in code order: the grid; an empty grid (`largura`); a raw column or `Cobrimento` missing from the merged parameters; then `PeDireito`, then the prices |
| Optimizer.PillarOptimizer.CostTableIsPriced | src/optimizer.py:59-100 | a successful table is the priced and penalized frame of the predicted candidates |
| Optimizer.PillarOptimizer.CostTablePredictions | src/optimizer.py:40-63 | each table row carries the batch prediction of its own width's candidate |
| Optimizer.PillarOptimizer.FindOptimalWidth | src/optimizer.py:18-105 | fails exactly as the cost table does, with the same error; otherwise returns the table sorted by cost, as a permutation |
| Optimizer.PriceAndSort | src/optimizer.py:62-103 | fails exactly as the priced frame does; otherwise returns that frame sorted by cost, as a permutation |
| Optimizer.PriceColumns | src/optimizer.py:62-84 | a fresh frame of one priced row per batch row |
| Optimizer.PenalizeRows | src/optimizer.py:90-100 | each row is overwritten with its penalized self, in place |

## Left out

- `mu_total` and `theta_moment` (src/feature_engineering.py:90, 117) are
  left out. They need `sqrt` and `atan2`, which are floating-point
  functions. Both depend only on `mu_x` and `mu_y`, so an opaque model of
  the feature vector covers them.
- Floating point is left out: rounding, NaN and infinities are not
  modelled, and numbers are exact reals.
  - A division by zero in the transform is excluded by the preconditions
    `Computable`, `Admissible` and `CandidatesAdmissible`. These cover a
    zero width, height or fck, and a base moment of exactly -1e-6.
  - A zero `Ac` in the target's division (src/feature_engineering.py:137)
    is excluded by the precondition of `CreateTargetVariable`, which
    requires a present `Ac` to be non-zero.
  - A cell that pandas fills with NaN, because another record has that
    column, is excluded by `NoMissingCells`.
  - The `+inf` total is the `Cost.Infinity` constructor.
- Loading the models from disk, and the missing-file failure, are left
  out. The constructor takes the two models as values.
- Logging, the debug printout of the optimizer
  (src/optimizer.py:92-97), training, data loading, visualization and the
  scripts are not part of this model.
- The engineered frame's other columns are not modelled. The transform
  copies the frame and keeps every input column; the model returns only
  the derived columns and `Ac`.
- PredictSingle: agreement with the batch row is promised only for
  labels 0 and 1. For any other label the single result runs the
  regressor while the batch row masks it.
- SortByCost: promises an ascending order and a permutation, not the
  input order of equal costs, because pandas' default sort is not stable.
- The behaviour of particular trained models is out of scope. For
  example, "an extreme load on a small section is infeasible" depends on
  the models' weights.
- Calling the transform twice is not stated as a lemma. The transform is
  a Dafny function, so it is deterministic by construction.
