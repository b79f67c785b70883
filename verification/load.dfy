/** The load step of dashboard/app.py (lines 14-50) as a pure function from
    the raw table to the enriched one. File reading and timestamp parsing are
    outside the model: each row arrives with its start year already parsed. */
module Load {
  import opened Wrappers
  import opened Records
  import opened Fill
  import opened Grading
  import opened Binning
  import Funnel

  /** `start_time.year - YoB`, missing when either side is missing (NaN
      propagates through pandas arithmetic). */
  function Age(startYear: Option<int>, yob: Option<int>): (a: Option<int>)
    ensures a.Some? <==> startYear.Some? && yob.Some?
    ensures a.Some? ==> yob.value + a.value == startYear.value
  {
    if startYear.Some? && yob.Some? then Some(startYear.value - yob.value) else None
  }

  /** The derivations applied to one filled row: age, the 0/1 certified flag,
      the letter-grade category and the activity-day bin. */
  function Derive(f: RawRecord): (l: Learner)
    requires IsFilled(f)
    ensures l.education == f.education.value && l.gender == f.gender.value
    ensures l.grade == f.grade.value && l.ndaysAct == f.ndaysAct.value
    ensures l.nevents == f.nevents.value && l.nchapters == f.nchapters.value
    ensures l.viewed == f.viewed && l.explored == f.explored
    ensures l.certified == 1 <==> f.certified
    ensures l.gradeCategory.NotGraded? <==> l.grade < 0.0
    ensures InBand(l.grade, l.gradeCategory)
    ensures l.daysBin.None? <==> l.ndaysAct < 0
    ensures l.daysBin.Some? ==> InBin(DaysEdges, l.ndaysAct, l.daysBin.value)
    ensures l.age.Some? <==> f.startYear.Some? && f.yob.Some?
    ensures l.age == Age(f.startYear, f.yob)
  {
    var g := f.grade.value;
    ClassifyMatchesBands(g, Classify(g));
    Learner(
      age := Age(f.startYear, f.yob),
      certified := if f.certified then 1 else 0,
      viewed := f.viewed,
      explored := f.explored,
      education := f.education.value,
      gender := f.gender.value,
      grade := g,
      nevents := f.nevents.value,
      ndaysAct := f.ndaysAct.value,
      nchapters := f.nchapters.value,
      gradeCategory := Classify(g),
      daysBin := BinDays(f.ndaysAct.value))
  }

  /** The whole load step: fill, then derive, row by row. */
  function LoadData(raw: seq<RawRecord>): (t: seq<Learner>)
    ensures |t| == |raw|
    // the fill policy, seen through the loaded rows
    ensures forall i :: 0 <= i < |t| ==>
      && t[i].education == raw[i].education.GetOr(UnknownLabel)
      && t[i].gender == raw[i].gender.GetOr(UnknownLabel)
      && t[i].grade == raw[i].grade.GetOr(UngradedSentinel)
      && t[i].nevents == raw[i].nevents.GetOr(NoActivity)
      && t[i].ndaysAct == raw[i].ndaysAct.GetOr(NoActivity)
      && t[i].nchapters == raw[i].nchapters.GetOr(NoActivity)
    // the derived columns agree with their independent descriptions
    ensures forall i :: 0 <= i < |t| ==>
      && InBand(t[i].grade, t[i].gradeCategory)
      && (t[i].daysBin.None? <==> t[i].ndaysAct < 0)
      && (t[i].daysBin.Some? ==> InBin(DaysEdges, t[i].ndaysAct, t[i].daysBin.value))
      && (t[i].certified == 1 <==> raw[i].certified)
      && (t[i].age.Some? <==> raw[i].startYear.Some? && raw[i].yob.Some?)
      && t[i].age == Age(raw[i].startYear, raw[i].yob)
    // the columns outside the fill policy are carried over unchanged
    ensures forall i :: 0 <= i < |t| ==>
      t[i].viewed == raw[i].viewed && t[i].explored == raw[i].explored
  {
    var filled := FillTable(raw);
    seq(|raw|, i requires 0 <= i < |raw| => Derive(filled[i]))
  }

  /** A missing grade is filled with -1 and so classified "Not Graded"; a
      present grade keeps its own category. */
  lemma MissingGradeNotGraded(r: RawRecord)
    ensures r.grade.None? ==> Derive(FillRecord(r)).gradeCategory.Label() == "Not Graded"
    ensures r.grade.Some? ==> Derive(FillRecord(r)).gradeCategory == Classify(r.grade.value)
  {
  }

  /** A missing activity-day count is filled with 0 and lands in bin "0"; a
      present non-negative count always lands in some bin. */
  lemma MissingDaysFirstBin(r: RawRecord)
    ensures r.ndaysAct.None? ==> Derive(FillRecord(r)).daysBin == Some(0)
    ensures r.ndaysAct.None? ==> DaysLabel(Derive(FillRecord(r)).ndaysAct) == Some("0")
    ensures r.ndaysAct.Some? && r.ndaysAct.value >= 0 ==> Derive(FillRecord(r)).daysBin.Some?
  {
  }

  /** A missing education level or gender reads "Unknown" after loading; a
      present one is kept. */
  lemma MissingCategoricalUnknown(r: RawRecord)
    ensures Derive(FillRecord(r)).education == r.education.GetOr("Unknown")
    ensures Derive(FillRecord(r)).gender == r.gender.GetOr("Unknown")
  {
  }

  /** Loading works row by row: loading a table made of two parts is loading
      each part and concatenating the results. */
  lemma {:induction false} LoadDataDistributes(a: seq<RawRecord>, b: seq<RawRecord>)
    ensures LoadData(a + b) == LoadData(a) + LoadData(b)
  {
    var l, r := LoadData(a + b), LoadData(a) + LoadData(b);
    assert |l| == |r|;
    forall i | 0 <= i < |l| ensures l[i] == r[i] {
      if i < |a| {
        assert (a + b)[i] == a[i];
      } else {
        assert (a + b)[i] == b[i - |a|];
      }
    }
  }

  /** The Certified stage of the funnel over the loaded table counts exactly
      the rows whose raw certified flag is set. */
  lemma LoadedCertifiedCount(raw: seq<RawRecord>)
    ensures Funnel.ColumnSum(LoadData(raw), Funnel.Certified)
            == |set i: nat | i < |raw| && raw[i].certified|
  {
    var t := LoadData(raw);
    Funnel.CertifiedBounded(t);
    assert Funnel.FlaggedRows(t, Funnel.Certified) == set i: nat | i < |raw| && raw[i].certified;
  }
}
