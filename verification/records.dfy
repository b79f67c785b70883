/** The learner record, one row of the course-registration table, before and
    after the load step of dashboard/app.py. */
module Records {
  import opened Wrappers

  /** An integer coerced to 0 or 1. */
  type Bit = b: int | 0 <= b <= 1

  /** A row as read from the file. Every column the load step fills may be
      missing. `startYear` is the calendar year of the parsed `start_time_DI`
      timestamp, `None` when the timestamp was absent or unparseable. */
  datatype RawRecord = RawRecord(
    startYear: Option<int>,
    yob: Option<int>,
    certified: bool,
    viewed: int,
    explored: int,
    education: Option<string>,
    gender: Option<string>,
    grade: Option<real>,
    nevents: Option<int>,
    ndaysAct: Option<int>,
    nchapters: Option<int>)

  /** The letter-grade categories, declared from worst to best. */
  datatype GradeCategory = NotGraded | F | D | C | B | A {

    /** The label the table stores for this category. */
    function Label(): string
    {
      match this
      case NotGraded => "Not Graded"
      case F => "F"
      case D => "D"
      case C => "C"
      case B => "B"
      case A => "A"
    }

    /** Position in the order Not Graded < F < D < C < B < A. */
    function Rank(): nat
    {
      match this
      case NotGraded => 0
      case F => 1
      case D => 2
      case C => 3
      case B => 4
      case A => 5
    }
  }

  /** The index of one of the eight activity-day bins. */
  type DaysBin = i: nat | i < 8

  /** A row of the enriched table the load step returns. */
  datatype Learner = Learner(
    age: Option<int>,
    certified: Bit,
    viewed: int,
    explored: int,
    education: string,
    gender: string,
    grade: real,
    nevents: int,
    ndaysAct: int,
    nchapters: int,
    gradeCategory: GradeCategory,
    daysBin: Option<DaysBin>)
}
