/** `pd.cut(..., right=False)` over a sorted list of bin edges, and its use on
    the activity-day counter (dashboard/app.py:46-48). */
module Binning {
  import opened Wrappers
  import opened Records

  /** A bin edge: a finite number or positive infinity (`np.inf`). */
  datatype Bound = Finite(v: int) | PosInf

  /** `b <= d` for a finite value `d`. */
  predicate AtMost(b: Bound, d: int)
  {
    b.Finite? && b.v <= d
  }

  /** `d < b` for a finite value `d`. */
  predicate Below(d: int, b: Bound)
  {
    b.PosInf? || d < b.v
  }

  /** Strict order on edges. */
  predicate Less(a: Bound, b: Bound)
  {
    a.Finite? && (b.PosInf? || a.v < b.v)
  }

  /** The edges must increase strictly, as `pd.cut` demands. */
  predicate Increasing(edges: seq<Bound>)
  {
    forall i, j :: 0 <= i < j < |edges| ==> Less(edges[i], edges[j])
  }

  /** `d` lies in the right-open interval [edges[i], edges[i+1]). */
  predicate InBin(edges: seq<Bound>, d: int, i: int)
  {
    0 <= i && i + 1 < |edges| && AtMost(edges[i], d) && Below(d, edges[i + 1])
  }

  /** Scans the intervals from index `i` on and returns the first that holds
      `d`. */
  function CutFrom(edges: seq<Bound>, d: int, i: nat): (r: Option<nat>)
    decreases |edges| - i
    ensures r.Some? ==> i <= r.value && InBin(edges, d, r.value)
    ensures r.Some? ==> forall j :: i <= j < r.value ==> !InBin(edges, d, j)
    ensures r.None? ==> forall j :: i <= j ==> !InBin(edges, d, j)
  {
    if i + 1 >= |edges| then None
    else if InBin(edges, d, i) then Some(i)
    else CutFrom(edges, d, i + 1)
  }

  /** The index of the right-open bin holding `d`, or `None` (pandas NaN) when
      `d` lies outside every bin. */
  function Cut(edges: seq<Bound>, d: int): (r: Option<nat>)
    requires Increasing(edges)
    ensures r.Some? ==> InBin(edges, d, r.value)
    ensures r.None? ==> forall j :: !InBin(edges, d, j)
  {
    CutFrom(edges, d, 0)
  }

  /** With increasing edges a value lies in at most one bin. */
  lemma BinsDisjoint(edges: seq<Bound>, d: int, i: int, j: int)
    requires Increasing(edges)
    requires InBin(edges, d, i) && InBin(edges, d, j)
    ensures i == j
  {
  }

  /** `Cut` returns a bin exactly when the value lies in it. */
  lemma CutExact(edges: seq<Bound>, d: int, i: int)
    requires Increasing(edges)
    ensures Cut(edges, d) == Some(i) <==> InBin(edges, d, i)
  {
    var r := Cut(edges, d);
    if InBin(edges, d, i) {
      assert r.Some?;
      BinsDisjoint(edges, d, r.value, i);
    }
  }

  /** Larger values never fall in an earlier bin. */
  lemma CutMonotone(edges: seq<Bound>, d1: int, d2: int)
    requires Increasing(edges)
    requires d1 <= d2
    requires Cut(edges, d1).Some? && Cut(edges, d2).Some?
    ensures Cut(edges, d1).value <= Cut(edges, d2).value
  {
  }

  /** The edges [0, 1, 3, 7, 14, 30, 60, 90, inf) of the activity-day bins. */
  const DaysEdges: seq<Bound> :=
    [Finite(0), Finite(1), Finite(3), Finite(7), Finite(14), Finite(30),
     Finite(60), Finite(90), PosInf]

  /** The labels of the eight activity-day bins, in edge order. */
  const DaysLabels: seq<string> :=
    ["0", "1-2", "3-6", "7-13", "14-29", "30-59", "60-89", "90+"]

  lemma DaysEdgesIncreasing()
    ensures Increasing(DaysEdges)
  {
  }

  /** The bin of an activity-day count: `None` exactly for negative counts,
      otherwise the one bin whose interval holds the count. */
  function BinDays(d: int): (r: Option<DaysBin>)
    ensures r.None? <==> d < 0
    ensures r.Some? ==> InBin(DaysEdges, d, r.value)
  {
    DaysEdgesIncreasing();
    match Cut(DaysEdges, d)
    case None =>
      assert d >= 0 ==> InBin(DaysEdges, d, MaxFiniteBelow(d));
      None
    case Some(i) => Some(i)
  }

  /** The last finite edge not above a non-negative `d`: a witness that every
      non-negative count has a bin. */
  function MaxFiniteBelow(d: int): (i: nat)
    requires d >= 0
    ensures InBin(DaysEdges, d, i)
  {
    if d < 1 then 0 else if d < 3 then 1 else if d < 7 then 2
    else if d < 14 then 3 else if d < 30 then 4 else if d < 60 then 5
    else if d < 90 then 6 else 7
  }

  /** The label of a count's bin, `None` when the count is negative. */
  function DaysLabel(d: int): (l: Option<string>)
    ensures l.Some? <==> d >= 0
    ensures l.Some? ==> l.value in DaysLabels
    ensures forall i :: InBin(DaysEdges, d, i) ==> l == Some(DaysLabels[i])
  {
    BinDaysAllExact(d);
    match BinDays(d)
    case None => None
    case Some(i) => Some(DaysLabels[i])
  }

  /** Every non-negative count lies in exactly one of the eight bins. */
  lemma BinDaysExact(d: int, i: int)
    ensures BinDays(d) == Some(i) <==> InBin(DaysEdges, d, i)
  {
    DaysEdgesIncreasing();
    CutExact(DaysEdges, d, i);
  }

  /** Whichever bin holds a count is the bin assigned to it. */
  lemma BinDaysAllExact(d: int)
    ensures forall i :: InBin(DaysEdges, d, i) ==> BinDays(d) == Some(i)
  {
    forall i | InBin(DaysEdges, d, i) ensures BinDays(d) == Some(i) {
      BinDaysExact(d, i);
    }
  }

  /** Bin indices never decrease as the count grows. */
  lemma BinDaysMonotone(d1: int, d2: int)
    requires 0 <= d1 <= d2
    ensures BinDays(d1).Some? && BinDays(d2).Some?
    ensures BinDays(d1).value <= BinDays(d2).value
  {
    DaysEdgesIncreasing();
    CutMonotone(DaysEdges, d1, d2);
  }

  /** The worked examples: 0, 3, 89 and 90 active days. */
  lemma DaysLabelExamples()
    ensures DaysLabel(0) == Some("0")
    ensures DaysLabel(3) == Some("3-6")
    ensures DaysLabel(89) == Some("60-89")
    ensures DaysLabel(90) == Some("90+")
    ensures DaysLabel(-1) == None
  {
  }
}
