/** The two-stage predictor: a classifier decides whether a pillar is
    feasible, and only then does a regressor give its steel ratio rho,
    which times the section area `Ac` is the predicted steel area `As`.
    Both models are opaque: any functions of the feature vector. */
module Predictor {
  import opened Common
  import opened FeatureEngineering

  /** One row of the models' input. Every configured feature column is a
      raw column, the concrete cover, or a derived column of the transform,
      so the raw pillar and the cover determine the whole row; `mu_total`
      and `theta_moment` are functions of `mu_x` and `mu_y`, so an opaque
      model over this vector covers them too. */
  datatype FeatureVector = FeatureVector(pillar: Pillar, cobrimento: real)

  /** The derived columns of a feature row. */
  function DerivedColumns(x: FeatureVector): Derived
    requires Computable(x.pillar)
  {
    Engineer(x.pillar).derived
  }

  /** The classifier: its label (1 = feasible) and its probability of class 1. */
  datatype Classifier = Classifier(predict: FeatureVector -> int, predictProba: FeatureVector -> real)

  /** The regressor of the steel ratio rho. */
  datatype Regressor = Regressor(predict: FeatureVector -> real)

  /** A record ready for the models: its feature vector and its area. */
  datatype Prepared = Prepared(x: FeatureVector, ac: real)

  datatype Status = Feasible | Infeasible

  const InfeasibleMessage: string := "Pillar geometry/loads failed feasibility check."

  /** The dictionary `predict_single` returns; the optional keys are the
      ones it inserts only on some paths. */
  datatype SingleResult = SingleResult(
    status: Status, feasibilityProb: real, ac: real, asActual: real,
    rhoPredicted: real, asPredicted: real,
    message: Option<string>, error: Option<real>, errorPct: Option<real>)

  /** One row of the frame `predict_batch` returns. */
  datatype BatchRow = BatchRow(
    isFeasible: int, probFeasible: real, rhoPredicted: real, asPredicted: real,
    asActual: real, ac: real)

  /** The engineered frame of one record and its feature columns: a missing
      raw column fails in the transform, a missing cover when the feature
      columns are selected (pandas reports the absent labels as a list). */
  function Features(row: Row): (r: Result<Prepared>)
    requires Admissible(row)
    ensures r.Success? <==> HasPillarColumns(row.Keys) && "Cobrimento" in row
    ensures !HasPillarColumns(row.Keys) ==> r == Failure(MissingKey(MissingPillarColumn(row.Keys).value))
    ensures HasPillarColumns(row.Keys) && "Cobrimento" !in row ==> r == Failure(MissingKeys({"Cobrimento"}))
    ensures r.Success? ==> r.value.ac == row["largura"] * row["Altura"] && r.value.ac != 0.0
    ensures r.Success? ==> r.value.x == FeatureVector(ReadPillar(row).value, row["Cobrimento"])
    ensures r.Success? ==> Computable(r.value.x.pillar)
  {
    match ReadPillar(row)
    case Failure(e) => Failure(e)
    case Success(p) =>
      if "Cobrimento" !in row then Failure(MissingKeys({"Cobrimento"}))
      else Success(Prepared(FeatureVector(p, row["Cobrimento"]), Area(p)))
  }

  /** The prepared record is the transform's output: it fails exactly when
      the transform fails, with the same error, and otherwise carries the
      transform's area and derived columns. */
  lemma FeaturesFollowTransform(row: Row)
    requires Admissible(row)
    ensures CreateEngineeredFeatures(row).Failure? ==> Features(row) == Failure(CreateEngineeredFeatures(row).error)
    ensures CreateEngineeredFeatures(row).Success? && "Cobrimento" in row ==>
      && Features(row).Success?
      && Features(row).value.ac == CreateEngineeredFeatures(row).value.ac
      && DerivedColumns(Features(row).value.x) == CreateEngineeredFeatures(row).value.derived
  {
  }

  /** Every configured feature column is a raw column the transform reads,
      a column it adds, or the concrete cover. */
  lemma ConfiguredColumnsAvailable()
    ensures forall c :: c in FeatureColumns ==> c in PillarColumns || c in EngineeredColumnNames || c == "Cobrimento"
  {
  }

  /** The concrete cover is configured, and neither read nor added by the
      transform: once the raw columns are present, it is the only feature
      column the engineered frame can lack. */
  lemma CoverComesFromTheRecord()
    ensures "Cobrimento" in FeatureColumns
    ensures "Cobrimento" !in PillarColumns && "Cobrimento" !in EngineeredColumnNames
  {
  }

  /** A column other rows carry is present in every row: otherwise pandas
      fills the gap with NaN. */
  predicate Dense(rows: seq<Row>, column: string)
  {
    (exists i :: 0 <= i < |rows| && column in rows[i]) ==> forall i :: 0 <= i < |rows| ==> column in rows[i]
  }

  /** No column the pipeline reads has a NaN cell in the batch frame. */
  predicate NoMissingCells(rows: seq<Row>)
  {
    && Dense(rows, "largura") && Dense(rows, "Altura") && Dense(rows, "PeDireito") && Dense(rows, "fck")
    && Dense(rows, "N_top") && Dense(rows, "N_base") && Dense(rows, "Mx_top") && Dense(rows, "Mx_base")
    && Dense(rows, "My_top") && Dense(rows, "My_base") && Dense(rows, "Cobrimento") && Dense(rows, "As")
  }

  predicate AllAdmissible(rows: seq<Row>)
  {
    forall i :: 0 <= i < |rows| ==> Admissible(rows[i])
  }

  /** What single and batch mode must agree on for one record. */
  predicate Agrees(s: SingleResult, b: BatchRow)
  {
    && (s.status == Feasible <==> b.isFeasible == 1)
    && s.feasibilityProb == b.probFeasible
    && s.rhoPredicted == b.rhoPredicted
    && s.asPredicted == b.asPredicted
    && s.asActual == b.asActual
    && s.ac == b.ac
  }

  /** In a dense batch every record has the same columns the pipeline
      reads as the first one, so every record is prepared, or every record
      fails with the first one's error. */
  lemma DenseFeatures(rows: seq<Row>, i: int)
    requires NoMissingCells(rows) && AllAdmissible(rows) && 0 <= i < |rows|
    ensures Features(rows[i]).Success? <==> Features(rows[0]).Success?
    ensures Features(rows[i]).Failure? ==> Features(rows[i]).error == Features(rows[0]).error
    ensures ("As" in rows[i]) == ("As" in rows[0])
  {
    assert HasPillarColumns(rows[i].Keys) == HasPillarColumns(rows[0].Keys);
    assert MissingPillarColumn(rows[i].Keys) == MissingPillarColumn(rows[0].Keys);
  }

  class PillarPredictor {
    const classifier: Classifier
    const regressor: Regressor

    /** Both models are given; loading them from disk is I/O. */
    constructor(classifier: Classifier, regressor: Regressor)
      ensures this.classifier == classifier && this.regressor == regressor
    {
      this.classifier := classifier;
      this.regressor := regressor;
    }

    /** predict_single: classify, and only for a label other than 0 run the
        regressor; the error fields appear only when a real `As` is known. */
    method PredictSingle(data: Row) returns (r: Result<SingleResult>)
      requires Admissible(data)
      ensures r.Failure? <==> Features(data).Failure?
      ensures r.Failure? ==> r.error == Features(data).error
      ensures r.Success? ==>
        var f := Features(data).value;
        var lbl := classifier.predict(f.x);
        && (r.value.status == Feasible <==> lbl == 1)
        && r.value.feasibilityProb == classifier.predictProba(f.x)
        && r.value.ac == f.ac
        && r.value.asActual == GetOrZero(data, "As")
        && (lbl == 0 ==>
              r.value == SingleResult(Infeasible, classifier.predictProba(f.x), f.ac, GetOrZero(data, "As"),
                                      0.0, 0.0, Some(InfeasibleMessage), None, None))
        && (lbl != 0 ==>
              && r.value.rhoPredicted == regressor.predict(f.x)
              && r.value.asPredicted == regressor.predict(f.x) * f.ac
              && r.value.message == None)
        && (r.value.error.Some? <==> lbl != 0 && r.value.asActual > 0.0)
        && (r.value.errorPct.Some? <==> r.value.error.Some?)
        && (r.value.error.Some? ==>
              && r.value.error.value == r.value.asPredicted - r.value.asActual
              && r.value.errorPct.value * r.value.asActual == r.value.error.value * 100.0)
      ensures r.Failure? ==> PredictBatch([data]) == Failure(r.error)
      ensures r.Success? && classifier.predict(Features(data).value.x) in {0, 1} ==>
        PredictBatch([data]).Success? && Agrees(r.value, PredictBatch([data]).value[0])
    {
      SingletonBatch(data);
      var prepared := Features(data);
      if prepared.Failure? {
        return Failure(prepared.error);
      }
      var x := prepared.value.x;
      var ac := prepared.value.ac;
      var isFeasible := classifier.predict(x);
      var probFeasible := classifier.predictProba(x);
      var result := SingleResult(
        if isFeasible == 1 then Feasible else Infeasible, probFeasible, ac, GetOrZero(data, "As"),
        0.0, 0.0, None, None, None);
      if isFeasible == 0 {
        result := result.(rhoPredicted := 0.0, asPredicted := 0.0, message := Some(InfeasibleMessage));
      } else {
        var rhoPred := regressor.predict(x);
        var asPred := rhoPred * ac;
        result := result.(rhoPredicted := rhoPred, asPredicted := asPred);
        if result.asActual > 0.0 {
          var error := asPred - result.asActual;
          result := result.(error := Some(error), errorPct := Some((error / result.asActual) * 100.0));
        }
      }
      r := Success(result);
    }

    /** One batch row: the regressor runs on every record, and its rho and
        steel area are masked to 0 where the label is not 1. */
    function Masked(row: Row): (b: BatchRow)
      requires Admissible(row) && Features(row).Success?
      ensures var f := Features(row).value;
        && b.isFeasible == classifier.predict(f.x)
        && b.probFeasible == classifier.predictProba(f.x)
        && (b.isFeasible == 1 ==> b.rhoPredicted == regressor.predict(f.x) && b.asPredicted == b.rhoPredicted * f.ac)
        && (b.isFeasible != 1 ==> b.rhoPredicted == 0.0 && b.asPredicted == 0.0)
        && b.asActual == GetOrZero(row, "As")
        && b.ac == f.ac
    {
      var f := Features(row).value;
      var feasibility := classifier.predict(f.x);
      var rhoPred := regressor.predict(f.x);
      BatchRow(
        feasibility, classifier.predictProba(f.x),
        if feasibility == 1 then rhoPred else 0.0,
        if feasibility == 1 then rhoPred * f.ac else 0.0,
        GetOrZero(row, "As"), f.ac)
    }

    /** predict_batch: one frame built from all records. An empty list has
        no columns, so the transform fails on its first column. */
    function PredictBatch(rows: seq<Row>): (r: Result<seq<BatchRow>>)
      requires NoMissingCells(rows) && AllAdmissible(rows)
      ensures |rows| == 0 ==> r == Failure(MissingKey("largura"))
      ensures |rows| > 0 ==> (r.Success? <==> forall i :: 0 <= i < |rows| ==> Features(rows[i]).Success?)
      ensures |rows| > 0 && r.Failure? ==> r.error == Features(rows[0]).error
      ensures r.Success? ==> |r.value| == |rows|
      ensures r.Success? ==> forall i :: 0 <= i < |rows| ==> Features(rows[i]).Success? && r.value[i] == Masked(rows[i])
    {
      if |rows| == 0 then Failure(MissingKey("largura"))
      else if Features(rows[0]).Failure? then
        DenseFeatures(rows, 0);
        Failure(Features(rows[0]).error)
      else
        assert forall i :: 0 <= i < |rows| ==> Features(rows[i]).Success? by {
          forall i | 0 <= i < |rows| {
            DenseFeatures(rows, i);
          }
        }
        Success(seq(|rows|, i requires 0 <= i < |rows| => Masked(rows[i])))
    }

    /** A batch of one record fails as that record's preparation does, or
        holds its one masked row. */
    lemma SingletonBatch(data: Row)
      requires Admissible(data)
      ensures NoMissingCells([data]) && AllAdmissible([data])
      ensures Features(data).Failure? ==> PredictBatch([data]) == Failure(Features(data).error)
      ensures Features(data).Success? ==> PredictBatch([data]) == Success([Masked(data)])
    {
      if Features(data).Success? {
        assert PredictBatch([data]).value == [Masked(data)];
      }
    }

    /** Row i of a batch is what a batch of record i alone gives: rows do
        not influence each other. */
    lemma BatchRowIndependent(rows: seq<Row>, i: int)
      requires NoMissingCells(rows) && AllAdmissible(rows) && 0 <= i < |rows|
      requires PredictBatch(rows).Success?
      ensures PredictBatch([rows[i]]).Success?
      ensures PredictBatch(rows).value[i] == PredictBatch([rows[i]]).value[0]
    {
    }
  }
}
