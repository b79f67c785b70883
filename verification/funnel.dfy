/** The engagement-funnel counts of dashboard/app.py:58-63: the number of rows,
    then the column sums of the viewed, explored and certified flags. */
module Funnel {
  import opened Records

  datatype Stage = Viewed | Explored | Certified

  /** The value a row holds in a stage's column. */
  function Flag(l: Learner, s: Stage): int
  {
    match s
    case Viewed => l.viewed
    case Explored => l.explored
    case Certified => l.certified
  }

  /** The column sum `df[col].sum()`, accumulated front to back. */
  function ColumnSum(rows: seq<Learner>, s: Stage): (r: int)
    decreases |rows|
    ensures (forall i :: 0 <= i < |rows| ==> Flag(rows[i], s) >= 0) ==> r >= 0
    ensures IsBinaryColumn(rows, s) ==> 0 <= r <= |rows|
  {
    if |rows| == 0 then 0
    else ColumnSum(rows[..|rows| - 1], s) + Flag(rows[|rows| - 1], s)
  }

  /** The rows whose flag for a stage is set, by position. */
  function FlaggedRows(rows: seq<Learner>, s: Stage): set<nat>
  {
    set i: nat | i < |rows| && Flag(rows[i], s) == 1
  }

  /** Every row holds 0 or 1 in a stage's column. */
  predicate IsBinaryColumn(rows: seq<Learner>, s: Stage)
  {
    forall i :: 0 <= i < |rows| ==> Flag(rows[i], s) == 0 || Flag(rows[i], s) == 1
  }

  /** The funnel as the dashboard plots it. */
  datatype Counts = Counts(registered: int, viewed: int, explored: int, certified: int)

  /** On a 0/1 column the sum counts the rows whose flag is set, and so never
      exceeds the number of rows. */
  lemma {:induction false} SumCountsFlagged(rows: seq<Learner>, s: Stage)
    requires IsBinaryColumn(rows, s)
    ensures ColumnSum(rows, s) == |FlaggedRows(rows, s)|
    ensures 0 <= ColumnSum(rows, s) <= |rows|
    decreases |rows|
  {
    if |rows| == 0 {
      assert FlaggedRows(rows, s) == {};
    } else {
      var n := |rows| - 1;
      var front := rows[..n];
      assert IsBinaryColumn(front, s) by {
        forall i | 0 <= i < |front| ensures Flag(front[i], s) == 0 || Flag(front[i], s) == 1 {
          assert front[i] == rows[i];
        }
      }
      SumCountsFlagged(front, s);
      var before := FlaggedRows(front, s);
      assert n !in before;
      if Flag(rows[n], s) == 1 {
        assert FlaggedRows(rows, s) == before + {n};
      } else {
        assert FlaggedRows(rows, s) == before;
      }
    }
  }

  /** Computes the four funnel counts in one pass over the table. */
  method ComputeFunnel(rows: seq<Learner>) returns (c: Counts)
    ensures c.registered == |rows|
    ensures c.viewed == ColumnSum(rows, Viewed)
    ensures c.explored == ColumnSum(rows, Explored)
    ensures c.certified == ColumnSum(rows, Certified)
    // certified is coerced to 0/1, so its count is the number of certified rows
    ensures 0 <= c.certified == |FlaggedRows(rows, Certified)| <= c.registered
    // viewed and explored are not coerced: the same holds only for 0/1 columns
    ensures IsBinaryColumn(rows, Viewed) ==> 0 <= c.viewed == |FlaggedRows(rows, Viewed)| <= c.registered
    ensures IsBinaryColumn(rows, Explored) ==> 0 <= c.explored == |FlaggedRows(rows, Explored)| <= c.registered
  {
    var viewed, explored, certified := 0, 0, 0;
    var i := 0;
    while i < |rows|
      invariant 0 <= i <= |rows|
      invariant viewed == ColumnSum(rows[..i], Viewed)
      invariant explored == ColumnSum(rows[..i], Explored)
      invariant certified == ColumnSum(rows[..i], Certified)
    {
      assert rows[..i + 1][..i] == rows[..i];
      viewed := viewed + rows[i].viewed;
      explored := explored + rows[i].explored;
      certified := certified + rows[i].certified;
      i := i + 1;
    }
    assert rows[..i] == rows;
    c := Counts(|rows|, viewed, explored, certified);
    SumCountsFlagged(rows, Certified);
    if IsBinaryColumn(rows, Viewed) {
      SumCountsFlagged(rows, Viewed);
    }
    if IsBinaryColumn(rows, Explored) {
      SumCountsFlagged(rows, Explored);
    }
  }

  /** The coerced certified column is always 0/1, so the Certified count is
      the number of certified rows and never exceeds Registered. */
  lemma CertifiedBounded(rows: seq<Learner>)
    ensures ColumnSum(rows, Certified) == |FlaggedRows(rows, Certified)|
    ensures ColumnSum(rows, Certified) <= |rows|
  {
    SumCountsFlagged(rows, Certified);
  }
}
