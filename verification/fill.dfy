/** The fixed missing-value policy of the load step (dashboard/app.py:22-26). */
module Fill {
  import opened Wrappers
  import opened Records

  const UnknownLabel: string := "Unknown"
  const UngradedSentinel: real := -1.0
  const NoActivity: int := 0

  /** True when every column the policy covers holds a value. */
  predicate IsFilled(r: RawRecord)
  {
    && r.education.Some?
    && r.gender.Some?
    && r.grade.Some?
    && r.nevents.Some?
    && r.ndaysAct.Some?
    && r.nchapters.Some?
  }

  /** One column's fill: a present value is kept, a missing one becomes the
      default. */
  function FillCell<T>(cell: Option<T>, default: T): (r: Option<T>)
    ensures r.Some?
    ensures cell.Some? ==> r == cell
    ensures cell.None? ==> r == Some(default)
  {
    Some(cell.GetOr(default))
  }

  /** Applies the policy to one row: education and gender become "Unknown",
      grade becomes -1 and the three engagement counters become 0 when
      missing; every other column is left as it was. */
  function FillRecord(r: RawRecord): (f: RawRecord)
    ensures IsFilled(f)
    // the columns outside the policy are untouched
    ensures f.startYear == r.startYear && f.yob == r.yob
    ensures f.certified == r.certified && f.viewed == r.viewed && f.explored == r.explored
    // present values survive, missing ones get exactly their default
    ensures r.education.Some? ==> f.education == r.education
    ensures r.education.None? ==> f.education == Some(UnknownLabel)
    ensures r.gender.Some? ==> f.gender == r.gender
    ensures r.gender.None? ==> f.gender == Some(UnknownLabel)
    ensures r.grade.Some? ==> f.grade == r.grade
    ensures r.grade.None? ==> f.grade == Some(UngradedSentinel)
    ensures r.nevents.Some? ==> f.nevents == r.nevents
    ensures r.nevents.None? ==> f.nevents == Some(NoActivity)
    ensures r.ndaysAct.Some? ==> f.ndaysAct == r.ndaysAct
    ensures r.ndaysAct.None? ==> f.ndaysAct == Some(NoActivity)
    ensures r.nchapters.Some? ==> f.nchapters == r.nchapters
    ensures r.nchapters.None? ==> f.nchapters == Some(NoActivity)
  {
    r.(education := FillCell(r.education, UnknownLabel),
       gender := FillCell(r.gender, UnknownLabel),
       grade := FillCell(r.grade, UngradedSentinel),
       nevents := FillCell(r.nevents, NoActivity),
       ndaysAct := FillCell(r.ndaysAct, NoActivity),
       nchapters := FillCell(r.nchapters, NoActivity))
  }

  /** A row that is already complete is left exactly as it is. */
  lemma FillKeepsFilled(r: RawRecord)
    requires IsFilled(r)
    ensures FillRecord(r) == r
  {
  }

  /** Filling twice is the same as filling once. */
  lemma FillIdempotent(r: RawRecord)
    ensures FillRecord(FillRecord(r)) == FillRecord(r)
  {
    FillKeepsFilled(FillRecord(r));
  }

  /** The column-wise fill over the whole table. */
  function FillTable(rows: seq<RawRecord>): (t: seq<RawRecord>)
    ensures |t| == |rows|
    ensures forall i :: 0 <= i < |t| ==> IsFilled(t[i])
    ensures forall i :: 0 <= i < |t| && IsFilled(rows[i]) ==> t[i] == rows[i]
    // each row is filled on its own, with the per-column guarantees of FillRecord
    ensures forall i :: 0 <= i < |t| ==> t[i] == FillRecord(rows[i])
  {
    seq(|rows|, i requires 0 <= i < |rows| => FillRecord(rows[i]))
  }
}
