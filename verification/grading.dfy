/** The nested `grade_category` classifier of the load step
    (dashboard/app.py:29-41): an ordered chain of threshold tests. */
module Grading {
  import opened Records

  /** The classifier as written: the first test that holds decides. */
  function Classify(g: real): (c: GradeCategory)
    ensures c.NotGraded? <==> g < 0.0
    ensures InBand(g, c)
  {
    if g < 0.0 then NotGraded
    else if g >= 0.9 then A
    else if g >= 0.8 then B
    else if g >= 0.7 then C
    else if g >= 0.6 then D
    else F
  }

  /** Independent description of each category: the half-open band of
      grades [lower, upper) it covers, with no lower end for Not Graded and
      no upper end for A. */
  predicate InBand(g: real, c: GradeCategory)
  {
    match c
    case NotGraded => g < 0.0
    case F => 0.0 <= g < 0.6
    case D => 0.6 <= g < 0.7
    case C => 0.7 <= g < 0.8
    case B => 0.8 <= g < 0.9
    case A => 0.9 <= g
  }

  /** The chain picks a category exactly when the grade lies in that
      category's band, so the bands partition the reals and the chain is
      exhaustive. */
  lemma ClassifyMatchesBands(g: real, c: GradeCategory)
    ensures Classify(g) == c <==> InBand(g, c)
  {
    match c
    case NotGraded =>
    case F =>
    case D =>
    case C =>
    case B =>
    case A =>
  }

  /** Every grade lies in exactly one band. */
  lemma BandsPartition(g: real, c1: GradeCategory, c2: GradeCategory)
    ensures InBand(g, Classify(g))
    ensures InBand(g, c1) && InBand(g, c2) ==> c1 == c2
  {
    ClassifyMatchesBands(g, Classify(g));
    ClassifyMatchesBands(g, c1);
    ClassifyMatchesBands(g, c2);
  }

  /** Distinct categories carry distinct labels, so the stored label
      identifies the category. */
  lemma LabelInjective(c1: GradeCategory, c2: GradeCategory)
    ensures c1.Label() == c2.Label() <==> c1 == c2
  {
  }

  /** A higher grade never gets a worse category. */
  lemma ClassifyMonotone(g1: real, g2: real)
    requires g1 <= g2
    ensures Classify(g1).Rank() <= Classify(g2).Rank()
  {
  }

  /** The worked examples: 0.85 is a B and the fill sentinel -1 is Not Graded. */
  lemma ClassifyExamples()
    ensures Classify(0.85).Label() == "B"
    ensures Classify(-1.0).Label() == "Not Graded"
    ensures Classify(0.9) == A && Classify(0.6) == D && Classify(0.0) == F
  {
  }
}
