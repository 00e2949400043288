/** The physics-informed feature transform: from one raw pillar record
    (concrete strength, clear height, section, loads at top and base) to
    the averaged and varied loads, the cross-section area, the
    dimensionless force and moments of the interaction diagrams, the
    slenderness values and the second-order and shape indices; plus the
    steel-ratio target and the selection of the training columns. */
module FeatureEngineering {
  import opened Common

  /** Load factor (majoração de cargas). */
  const GammaF: real := 1.4
  /** Concrete material factor (minoração do concreto). */
  const GammaC: real := 1.4
  /** Added to the base moment before it divides the top moment. */
  const Eps: real := 0.000001
  /** Slenderness factor: 3.46 ~ sqrt(12), the radius of gyration of a rectangle. */
  const SlendernessFactor: real := 3.46

  /** The raw columns the transform reads, in the order it reads them. */
  const PillarColumns: seq<string> :=
    ["largura", "Altura", "PeDireito", "fck", "N_top", "N_base", "Mx_top", "Mx_base", "My_top", "My_base"]

  /** The columns the transform adds to the frame, in the order it adds them. */
  const EngineeredColumnNames: seq<string> :=
    ["N_med", "Mx_med", "My_med", "dN", "dMx", "dMy", "Ac", "nu", "mu_x", "mu_y",
     "lambda_x", "lambda_y", "mu_total", "e_x", "e_y",
     "ratio_M_x", "ratio_M_y", "index_2nd_order_x", "index_2nd_order_y", "aspect_ratio", "theta_moment"]

  /** The columns given to the models, as configured. */
  const FeatureColumns: seq<string> :=
    ["fck", "PeDireito", "largura", "Altura", "Cobrimento",
     "N_top", "Mx_top", "My_top", "N_base", "Mx_base", "My_base",
     "N_med", "Mx_med", "My_med", "dN", "dMx", "dMy",
     "nu", "mu_x", "mu_y", "mu_total", "lambda_x", "lambda_y",
     "e_x", "e_y",
     "ratio_M_x", "ratio_M_y", "index_2nd_order_x", "index_2nd_order_y",
     "aspect_ratio", "theta_moment"]

  /** One pillar: section width `largura` (X) and height `Altura` (Y) in cm,
      clear height in cm, fck in MPa, axial force (kN) and moments (kN·m)
      at the top and base stations. */
  datatype Pillar = Pillar(
    largura: real, altura: real, peDireito: real, fck: real,
    nTop: real, nBase: real, mxTop: real, mxBase: real, myTop: real, myBase: real)

  /** The derived columns that go to the models (`Ac` is kept apart). */
  datatype Derived = Derived(
    nMed: real, mxMed: real, myMed: real,
    dN: real, dMx: real, dMy: real,
    nu: real, muX: real, muY: real,
    lambdaX: real, lambdaY: real,
    eX: real, eY: real,
    ratioMX: real, ratioMY: real,
    index2ndX: real, index2ndY: real,
    aspectRatio: real)

  /** Result of the transform: the derived columns and the area `Ac`. */
  datatype Engineered = Engineered(derived: Derived, ac: real)

  /** No division of the transform has a zero denominator. */
  predicate Computable(p: Pillar)
  {
    p.largura != 0.0 && p.altura != 0.0 && p.fck != 0.0 && p.mxBase + Eps != 0.0 && p.myBase + Eps != 0.0
  }

  /** The same condition on a row, for whichever of those columns it has. */
  predicate Admissible(row: Row)
  {
    && ("largura" in row ==> row["largura"] != 0.0)
    && ("Altura" in row ==> row["Altura"] != 0.0)
    && ("fck" in row ==> row["fck"] != 0.0)
    && ("Mx_base" in row ==> row["Mx_base"] + Eps != 0.0)
    && ("My_base" in row ==> row["My_base"] + Eps != 0.0)
  }

  function Abs(x: real): (r: real)
    ensures r >= 0.0 && (r == x || r == -x)
  {
    if x < 0.0 then -x else x
  }

  /** `np.maximum(a, b)`. */
  function Max(a: real, b: real): (r: real)
    ensures r >= a && r >= b && (r == a || r == b)
  {
    if a >= b then a else b
  }

  /** Worst-case magnitude of a force or moment over the two stations. */
  function AbsMax(top: real, base: real): (r: real)
    ensures r >= Abs(top) && r >= Abs(base) && r >= 0.0
    ensures r == Abs(top) || r == Abs(base)
  {
    Max(Abs(top), Abs(base))
  }

  /** Design strength in kN/cm²: fck / γc, and MPa to kN/cm². */
  function Fcd(fck: real): (r: real)
    ensures fck != 0.0 ==> r != 0.0
    ensures fck > 0.0 ==> r > 0.0
  {
    (fck / GammaC) / 10.0
  }

  /** Cross-section area `Ac` in cm². */
  function Area(p: Pillar): (ac: real)
    requires Computable(p)
    ensures ac != 0.0
    ensures p.largura > 0.0 && p.altura > 0.0 ==> ac > 0.0
  {
    p.largura * p.altura
  }

  /** Dimensionless axial force: times Ac·fcd it is the factored
      worst-case axial force. */
  function Nu(p: Pillar): (nu: real)
    requires Computable(p)
    ensures nu * (Area(p) * Fcd(p.fck)) == AbsMax(p.nTop, p.nBase) * GammaF
  {
    (AbsMax(p.nTop, p.nBase) * GammaF) / (Area(p) * Fcd(p.fck))
  }

  /** A dimensionless moment: times Ac·lever·fcd it is the factored moment,
      converted from kN·m to kN·cm. */
  function ReducedMoment(moment: real, lever: real, p: Pillar): (mu: real)
    requires Computable(p) && lever != 0.0
    ensures mu * (Area(p) * lever * Fcd(p.fck)) == moment * GammaF * 100.0
  {
    (moment * GammaF * 100.0) / (Area(p) * lever * Fcd(p.fck))
  }

  /** Dimensionless moment about X: the lever arm is `Altura`. */
  function MuX(p: Pillar): (mu: real)
    requires Computable(p)
    ensures mu * (Area(p) * p.altura * Fcd(p.fck)) == AbsMax(p.mxTop, p.mxBase) * GammaF * 100.0
  {
    ReducedMoment(AbsMax(p.mxTop, p.mxBase), p.altura, p)
  }

  /** Dimensionless moment about Y: the lever arm is `largura`. */
  function MuY(p: Pillar): (mu: real)
    requires Computable(p)
    ensures mu * (Area(p) * p.largura * Fcd(p.fck)) == AbsMax(p.myTop, p.myBase) * GammaF * 100.0
  {
    ReducedMoment(AbsMax(p.myTop, p.myBase), p.largura, p)
  }

  /** Slenderness for a side: times the side it is 3.46 times the clear
      height. */
  function Slenderness(peDireito: real, side: real): (sl: real)
    requires side != 0.0
    ensures sl * side == SlendernessFactor * peDireito
  {
    SlendernessFactor * peDireito / side
  }

  /** Eccentricity of a moment: 0 for a zero axial force, otherwise times
      the force it gives back the moment; never negative for worst-case
      (absolute) values. */
  function Eccentricity(moment: real, force: real): (e: real)
    ensures force == 0.0 ==> e == 0.0
    ensures force != 0.0 ==> e * force == moment
    ensures moment >= 0.0 && force >= 0.0 ==> e >= 0.0
  {
    if force != 0.0 then moment / force else 0.0
  }

  /** Top-to-base moment ratio: times the base shifted by `Eps` it gives
      back the top moment, so the shift biases the ratio. */
  function MomentRatio(top: real, base: real): (ratio: real)
    requires base + Eps != 0.0
    ensures ratio * (base + Eps) == top
  {
    top / (base + Eps)
  }

  /** Second-order proxy: nu times slenderness squared, so it has the sign
      of nu and vanishes when either is zero. */
  function SecondOrderIndex(nu: real, slenderness: real): (index: real)
    ensures nu >= 0.0 ==> index >= 0.0
    ensures nu <= 0.0 ==> index <= 0.0
    ensures nu == 0.0 || slenderness == 0.0 ==> index == 0.0
  {
    nu * (slenderness * slenderness)
  }

  /** Rectangularity of the section: the larger of h/w and w/h. For a
      real section it is at least 1, and exactly 1 for a square. */
  function AspectRatio(largura: real, altura: real): (ratio: real)
    requires largura != 0.0 && altura != 0.0
    ensures largura > 0.0 && altura > 0.0 ==> ratio >= 1.0 && (ratio == 1.0 <==> largura == altura)
  {
    var ratio := Max(altura / largura, largura / altura);
    if largura <= 0.0 || altura <= 0.0 then ratio
    else if altura > largura then QuotientAboveOne(altura, largura); ratio
    else if largura > altura then QuotientAboveOne(largura, altura); ratio
    else assert altura / largura == 1.0; ratio
  }

  lemma QuotientAboveOne(a: real, b: real)
    requires b > 0.0 && a > b
    ensures a / b > 1.0
  {
  }

  /** The transform of one record (create_engineered_features). */
  function Engineer(p: Pillar): (e: Engineered)
    requires Computable(p)
    ensures e.ac == p.largura * p.altura && e.ac != 0.0
    ensures e.derived.nMed - e.derived.dN / 2.0 == p.nTop && e.derived.nMed + e.derived.dN / 2.0 == p.nBase
    ensures e.derived.mxMed - e.derived.dMx / 2.0 == p.mxTop && e.derived.mxMed + e.derived.dMx / 2.0 == p.mxBase
    ensures e.derived.myMed - e.derived.dMy / 2.0 == p.myTop && e.derived.myMed + e.derived.dMy / 2.0 == p.myBase
  {
    var nMax := AbsMax(p.nTop, p.nBase);
    var lambdaX := Slenderness(p.peDireito, p.largura);
    var lambdaY := Slenderness(p.peDireito, p.altura);
    Engineered(
      Derived(
        nMed := (p.nTop + p.nBase) / 2.0,
        mxMed := (p.mxTop + p.mxBase) / 2.0,
        myMed := (p.myTop + p.myBase) / 2.0,
        dN := p.nBase - p.nTop,
        dMx := p.mxBase - p.mxTop,
        dMy := p.myBase - p.myTop,
        nu := Nu(p),
        muX := MuX(p),
        muY := MuY(p),
        lambdaX := lambdaX,
        lambdaY := lambdaY,
        eX := Eccentricity(AbsMax(p.mxTop, p.mxBase), nMax),
        eY := Eccentricity(AbsMax(p.myTop, p.myBase), nMax),
        ratioMX := MomentRatio(p.mxTop, p.mxBase),
        ratioMY := MomentRatio(p.myTop, p.myBase),
        index2ndX := SecondOrderIndex(Nu(p), lambdaX),
        index2ndY := SecondOrderIndex(Nu(p), lambdaY),
        aspectRatio := AspectRatio(p.largura, p.altura)),
      Area(p))
  }

  /** The row has every raw column the transform reads. */
  predicate HasPillarColumns(keys: set<string>)
  {
    && "largura" in keys && "Altura" in keys && "PeDireito" in keys && "fck" in keys
    && "N_top" in keys && "N_base" in keys && "Mx_top" in keys && "Mx_base" in keys
    && "My_top" in keys && "My_base" in keys
  }

  /** The raw column whose subscript fails first, in the order the
      transform reads them (largura, Altura, PeDireito, fck, then the loads). */
  function MissingPillarColumn(keys: set<string>): (r: Option<string>)
    ensures r.None? <==> HasPillarColumns(keys)
    ensures r.Some? ==> r.value !in keys && r.value in PillarColumns
    ensures r.Some? ==>
      exists k :: 0 <= k < |PillarColumns| && PillarColumns[k] == r.value && forall j :: 0 <= j < k ==> PillarColumns[j] in keys
  {
    assert PillarColumns[0] == "largura" && PillarColumns[1] == "Altura" && PillarColumns[2] == "PeDireito"
      && PillarColumns[3] == "fck" && PillarColumns[4] == "N_top" && PillarColumns[5] == "N_base"
      && PillarColumns[6] == "Mx_top" && PillarColumns[7] == "Mx_base" && PillarColumns[8] == "My_top"
      && PillarColumns[9] == "My_base";
    if "largura" !in keys then Some("largura")
    else if "Altura" !in keys then Some("Altura")
    else if "PeDireito" !in keys then Some("PeDireito")
    else if "fck" !in keys then Some("fck")
    else if "N_top" !in keys then Some("N_top")
    else if "N_base" !in keys then Some("N_base")
    else if "Mx_top" !in keys then Some("Mx_top")
    else if "Mx_base" !in keys then Some("Mx_base")
    else if "My_top" !in keys then Some("My_top")
    else if "My_base" !in keys then Some("My_base")
    else None
  }

  /** Reads the raw columns of a row; a missing one is the KeyError raised. */
  function ReadPillar(row: Row): (r: Result<Pillar>)
    ensures r.Success? <==> HasPillarColumns(row.Keys)
    ensures r.Failure? ==> r.error == MissingKey(MissingPillarColumn(row.Keys).value)
    ensures r.Success? ==> r.value == Pillar(
      row["largura"], row["Altura"], row["PeDireito"], row["fck"],
      row["N_top"], row["N_base"], row["Mx_top"], row["Mx_base"], row["My_top"], row["My_base"])
    ensures r.Success? && Admissible(row) ==> Computable(r.value)
  {
    match MissingPillarColumn(row.Keys)
    case Some(c) => Failure(MissingKey(c))
    case None =>
      Success(Pillar(
        largura := row["largura"], altura := row["Altura"], peDireito := row["PeDireito"], fck := row["fck"],
        nTop := row["N_top"], nBase := row["N_base"], mxTop := row["Mx_top"], mxBase := row["Mx_base"],
        myTop := row["My_top"], myBase := row["My_base"]))
  }

  /** create_engineered_features on one row: the first missing raw column
      is the KeyError raised; otherwise the derived columns and `Ac`. */
  function CreateEngineeredFeatures(row: Row): (r: Result<Engineered>)
    requires Admissible(row)
    ensures r.Success? <==> HasPillarColumns(row.Keys)
    ensures r.Failure? ==> r.error == MissingKey(MissingPillarColumn(row.Keys).value)
    ensures r.Success? ==> r.value.ac == row["largura"] * row["Altura"] && r.value.ac != 0.0
    ensures r.Success? ==> var d := r.value.derived;
      && d.nMed == (row["N_top"] + row["N_base"]) / 2.0 && d.dN == row["N_base"] - row["N_top"]
      && d.mxMed == (row["Mx_top"] + row["Mx_base"]) / 2.0 && d.dMx == row["Mx_base"] - row["Mx_top"]
      && d.myMed == (row["My_top"] + row["My_base"]) / 2.0 && d.dMy == row["My_base"] - row["My_top"]
  {
    match ReadPillar(row)
    case Failure(e) => Failure(e)
    case Success(p) => Success(Engineer(p))
  }

  /** create_target_variable on one row of the engineered frame: the steel
      ratio rho = As / Ac, reading `As` first and then `Ac`. */
  function CreateTargetVariable(row: Row): (r: Result<real>)
    requires "Ac" in row ==> row["Ac"] != 0.0
    ensures r.Success? <==> "As" in row && "Ac" in row
    ensures "As" !in row ==> r == Failure(MissingKey("As"))
    ensures "As" in row && "Ac" !in row ==> r == Failure(MissingKey("Ac"))
    ensures r.Success? ==> r.value * row["Ac"] == row["As"]
  {
    if "As" !in row then Failure(MissingKey("As"))
    else if "Ac" !in row then Failure(MissingKey("Ac"))
    else Success(row["As"] / row["Ac"])
  }

  /** On a row the transform has given its `Ac` column, the target is the
      steel area over width times height. */
  lemma TargetAfterTransform(row: Row)
    requires Admissible(row) && CreateEngineeredFeatures(row).Success? && "As" in row
    ensures var engineered := row["Ac" := CreateEngineeredFeatures(row).value.ac];
      && CreateTargetVariable(engineered).Success?
      && CreateTargetVariable(engineered).value * (row["largura"] * row["Altura"]) == row["As"]
  {
    var engineered := row["Ac" := CreateEngineeredFeatures(row).value.ac];
    assert engineered["As"] == row["As"];
  }

  /** The list comprehension `[col for col in cols if col != 'Ac']`. */
  function WithoutAc(cols: seq<string>): (r: seq<string>)
    ensures forall c :: c in r <==> c in cols && c != "Ac"
    ensures |r| <= |cols|
  {
    if |cols| == 0 then []
    else if cols[0] == "Ac" then WithoutAc(cols[1..])
    else [cols[0]] + WithoutAc(cols[1..])
  }

  /** prepare_features, on the frame's column names: the clean feature list,
      or the KeyError naming every clean feature the frame lacks, or the
      KeyError for the target column. */
  function PrepareFeatures(columns: set<string>, featureColumns: seq<string>): (r: Result<seq<string>>)
    ensures r.Success? <==> (forall c :: c in featureColumns && c != "Ac" ==> c in columns) && "rho" in columns
    ensures r.Success? ==> "Ac" !in r.value && r.value == WithoutAc(featureColumns)
    ensures r.Success? ==> forall c :: c in r.value ==> c in columns
    ensures r.Failure? && r.error.MissingKeys? ==>
      r.error.keys != {} && forall c :: c in r.error.keys <==> c in featureColumns && c != "Ac" && c !in columns
    ensures r.Failure? && !r.error.MissingKeys? ==>
      r.error == MissingKey("rho") && forall c :: c in featureColumns && c != "Ac" ==> c in columns
  {
    var clean := WithoutAc(featureColumns);
    var missing := set c | c in clean && c !in columns;
    if missing != {} then Failure(MissingKeys(missing))
    else
      assert forall c :: c in featureColumns && c != "Ac" ==> c in clean && c !in missing;
      if "rho" !in columns then Failure(MissingKey("rho"))
    else Success(clean)
  }

  /** Filtering distributes over concatenation, so it keeps the relative
      order of the surviving columns. */
  lemma {:induction false} WithoutAcAppend(a: seq<string>, b: seq<string>)
    ensures WithoutAc(a + b) == WithoutAc(a) + WithoutAc(b)
  {
    if |a| == 0 {
      assert a + b == b;
    } else {
      assert (a + b)[1..] == a[1..] + b;
      WithoutAcAppend(a[1..], b);
    }
  }

  /** A list without 'Ac' passes through unchanged. */
  lemma {:induction false} WithoutAcIdentity(cols: seq<string>)
    requires "Ac" !in cols
    ensures WithoutAc(cols) == cols
  {
    if |cols| > 0 {
      assert cols == [cols[0]] + cols[1..];
      WithoutAcIdentity(cols[1..]);
    }
  }

  /** The configured feature list does not contain 'Ac', so training uses
      all of it, in the configured order. */
  lemma ConfiguredFeaturesKept()
    ensures WithoutAc(FeatureColumns) == FeatureColumns
  {
    WithoutAcIdentity(FeatureColumns);
  }
}
