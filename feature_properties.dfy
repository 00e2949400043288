/** What the feature transform promises about a record as a whole: signs
    for a real section, the symmetry of a square section, each derived
    column in its own field, and a worked record. */
module FeatureProperties {
  import opened Common
  import opened FeatureEngineering

  /** For a real section (positive width, height and fck) nu, mu_x and mu_y
      are non-negative. */
  lemma DimensionlessSigns(p: Pillar)
    requires Computable(p) && p.largura > 0.0 && p.altura > 0.0 && p.fck > 0.0
    ensures Area(p) > 0.0
    ensures Nu(p) >= 0.0 && MuX(p) >= 0.0 && MuY(p) >= 0.0
  {
    var fcd := Fcd(p.fck);
    var ac := Area(p);
    assert ac * fcd > 0.0;
    assert ac * p.altura * fcd > 0.0;
    assert ac * p.largura * fcd > 0.0;
  }

  /** A square section is symmetric: equal slenderness and second-order
      indices in both directions, aspect ratio exactly 1, and mu_x = mu_y
      when the worst-case moments about both axes are equal. */
  lemma SquareSection(p: Pillar)
    requires Computable(p) && p.largura == p.altura
    ensures Slenderness(p.peDireito, p.largura) == Slenderness(p.peDireito, p.altura)
    ensures SecondOrderIndex(Nu(p), Slenderness(p.peDireito, p.largura))
         == SecondOrderIndex(Nu(p), Slenderness(p.peDireito, p.altura))
    ensures AspectRatio(p.largura, p.altura) == 1.0
    ensures AbsMax(p.mxTop, p.mxBase) == AbsMax(p.myTop, p.myBase) ==> MuX(p) == MuY(p)
  {
    SquareAspect(p.largura);
    if AbsMax(p.mxTop, p.mxBase) == AbsMax(p.myTop, p.myBase) {
      SquareMoments(p);
    }
  }

  lemma SquareAspect(side: real)
    requires side != 0.0
    ensures AspectRatio(side, side) == 1.0
  {
    assert side / side == 1.0;
  }

  lemma SquareMoments(p: Pillar)
    requires Computable(p) && p.largura == p.altura
    requires AbsMax(p.mxTop, p.mxBase) == AbsMax(p.myTop, p.myBase)
    ensures MuX(p) == MuY(p)
  {
    assert MuY(p) == ReducedMoment(AbsMax(p.mxTop, p.mxBase), p.altura, p);
  }

  /** The transform places each column function in its own field. */
  lemma EngineeredColumns(p: Pillar)
    requires Computable(p)
    ensures var d := Engineer(p).derived;
      && d.nu == Nu(p) && d.muX == MuX(p) && d.muY == MuY(p)
      && d.lambdaX == Slenderness(p.peDireito, p.largura) && d.lambdaY == Slenderness(p.peDireito, p.altura)
      && d.eX == Eccentricity(AbsMax(p.mxTop, p.mxBase), AbsMax(p.nTop, p.nBase))
      && d.eY == Eccentricity(AbsMax(p.myTop, p.myBase), AbsMax(p.nTop, p.nBase))
      && d.index2ndX == SecondOrderIndex(d.nu, d.lambdaX) && d.index2ndY == SecondOrderIndex(d.nu, d.lambdaY)
      && d.ratioMX == MomentRatio(p.mxTop, p.mxBase) && d.ratioMY == MomentRatio(p.myTop, p.myBase)
      && d.aspectRatio == AspectRatio(p.largura, p.altura)
  {
  }

  /** A worked record: fck 50, clear height 235, a 30 x 95 section, N 392 at
      both stations, moments (129, -92) at the top and (205, 430) at the base. */
  lemma WorkedRecord()
    ensures var p := Pillar(
              largura := 30.0, altura := 95.0, peDireito := 235.0, fck := 50.0,
              nTop := 392.0, nBase := 392.0, mxTop := 129.0, mxBase := 205.0, myTop := -92.0, myBase := 430.0);
      && Computable(p)
      && Area(p) == 2850.0
      && Nu(p) == 9604.0 / 178125.0
      && MuX(p) == 4018.0 / 135375.0
      && MuY(p) == 4214.0 / 21375.0
      && Slenderness(p.peDireito, p.largura) == 8131.0 / 300.0
      && Slenderness(p.peDireito, p.altura) == 8131.0 / 950.0
      && AspectRatio(p.largura, p.altura) == 95.0 / 30.0
  {
  }
}
