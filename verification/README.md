# Learner-table load step, modelled in Dafny

The dashboard script `dashboard/app.py` loads a table of online-course learner
records and, before charting anything, derives a handful of columns from each
row (`load_data`): an age, a 0/1 certified flag, a fixed missing-value fill, a
letter-grade category and a binned activity-day count. It then counts an
engagement funnel (Registered, Viewed, Explored, Certified) over the result.
This project models those row-level derivations and the funnel counts as pure
Dafny functions and proves their properties.

Modules, one per concern of the load step:

- `Wrappers` — `Option`, the model of a cell that may be NaN.
- `Records` — the raw row (`RawRecord`, optional columns), the enriched row
  (`Learner`), the grade categories and the day-bin index.
- `Fill` — the fixed fill policy: education and gender become `"Unknown"`,
  grade `-1`, `nevents`/`ndays_act`/`nchapters` `0`.
- `Grading` — the `grade_category` threshold chain, with an independent
  band-by-band description, partition and monotonicity.
- `Binning` — `pd.cut` with `right=False` over strictly increasing edges
  (finite or `+inf`), specialised to the edges `[0,1,3,7,14,30,60,90,inf)` and
  the labels `0, 1-2, 3-6, 7-13, 14-29, 30-59, 60-89, 90+`.
- `Funnel` — the four funnel counts: row count and column sums, computed by a
  loop and related to the set of flagged rows.
- `Load` — age, the per-row derivation and the whole load step.

Types: grades are `real`, counts are `int`, strings are `seq<char>`. The start
timestamp arrives already reduced to its year (`Option<int>`), because date
parsing is outside the model.

## Model

| member | source | states |
|---|---|---|
| Fill.FillCell | dashboard/app.py:22-26 | a filled cell is always present: kept if it was present, exactly the default if it was missing |
| Fill.FillRecord | dashboard/app.py:22-26 | after filling, all six policy columns are present; present values are unchanged, missing ones get their fixed default ("Unknown", -1, 0); columns outside the policy are untouched |
| Fill.FillKeepsFilled | dashboard/app.py:22-26 | a row with no missing policy column is left exactly as it is |
| Fill.FillIdempotent | dashboard/app.py:22-26 | filling twice gives the same row as filling once |
| Fill.FillTable | dashboard/app.py:22-26 | the table keeps its length, every row comes out filled, already-complete rows are unchanged, and each row gets exactly the per-column fill of Fill.FillRecord (present values kept, missing ones defaulted, other columns untouched) |
| Grading.Classify | dashboard/app.py:29-41 | the category is "Not Graded" exactly when the grade is negative, and the grade always lies in the band of the category returned |
| Grading.ClassifyMatchesBands | dashboard/app.py:29-41 | the first-match chain returns a category if and only if the grade lies in that category's band (A: g >= 0.9, B: [0.8,0.9), C: [0.7,0.8), D: [0.6,0.7), F: [0,0.6), Not Graded: g < 0) |
| Grading.BandsPartition | dashboard/app.py:29-41 | every grade lies in the band of its category and in no other band |
| Grading.LabelInjective | dashboard/app.py:29-41 | distinct categories carry distinct labels |
| Grading.ClassifyMonotone | dashboard/app.py:29-41 | a higher grade never gets a worse category in the order Not Graded < F < D < C < B < A |
| Grading.ClassifyExamples | dashboard/app.py:29-41 | 0.85 is "B", the sentinel -1 is "Not Graded", 0.9 is A, 0.6 is D, 0 is F |
| Binning.CutFrom | dashboard/app.py:48 | the scan from a bin index returns the first later bin holding the value, and None only when no later bin holds it |
| Binning.Cut | dashboard/app.py:48 | for strictly increasing edges (pd.cut rejects any others), a returned bin's right-open interval holds the value; None means no interval holds it |
| Binning.BinsDisjoint | dashboard/app.py:48 | with increasing edges no value lies in two bins |
| Binning.CutExact | dashboard/app.py:48 | with increasing edges, the cut returns a bin if and only if the value lies in it |
| Binning.CutMonotone | dashboard/app.py:48 | with increasing edges, a larger value never falls in an earlier bin |
| Binning.DaysEdgesIncreasing | dashboard/app.py:46 | the nine activity-day edges increase strictly |
| Binning.MaxFiniteBelow | dashboard/app.py:46-48 | every non-negative count has a bin among the eight |
| Binning.BinDays | dashboard/app.py:46-48 | an activity-day count gets no bin exactly when it is negative, and otherwise a bin whose interval holds it |
| Binning.DaysLabel | dashboard/app.py:46-48 | a count has a label exactly when it is non-negative, and the label is the one of the interval that holds the count |
| Binning.BinDaysExact | dashboard/app.py:46-48 | a count lies in a bin if and only if that bin is the one assigned to it |
| Binning.BinDaysAllExact | dashboard/app.py:46-48 | whichever bin's interval holds a count is the bin assigned to it |
| Binning.BinDaysMonotone | dashboard/app.py:46-48 | for 0 <= d1 <= d2 both counts get a bin and the bin of d1 is not after the bin of d2 |
| Binning.DaysLabelExamples | dashboard/app.py:46-48 | 0 is "0", 3 is "3-6", 89 is "60-89", 90 is "90+", and -1 has no bin |
| Funnel.ColumnSum | dashboard/app.py:60-62 | the column sum of a non-negative column is non-negative, and on a 0/1 column it lies between 0 and the row count |
| Funnel.SumCountsFlagged | dashboard/app.py:60-62 | on a 0/1 column, the column sum equals the number of rows whose flag is 1 and lies between 0 and the row count |
| Funnel.ComputeFunnel | dashboard/app.py:58-63 | Registered is the row count and the other stages are the column sums; Certified is the number of certified rows and at most Registered; Viewed and Explored have the same bound only when their columns are 0/1 |
| Funnel.CertifiedBounded | dashboard/app.py:62 | the certified sum counts certified rows and never exceeds the row count |
| Load.Age | dashboard/app.py:18 | age is present exactly when both the start year and the birth year are, and then birth year plus age is the start year |
| Load.Derive | dashboard/app.py:18-48 | a filled row keeps its values; certified is 1 exactly for a true flag; the grade category is the grade's band and Not Graded exactly for negative grades; the day bin holds the count and is missing exactly for negative counts; age is present exactly when both years are and then equals Load.Age of the two years |
| Load.LoadData | dashboard/app.py:14-50 | one enriched row per raw row; each loaded column equals the raw value or its fixed default; viewed and explored are carried over unchanged; each derived column satisfies its band, bin, flag and age description, and the age is Load.Age of the row's years |
| Load.MissingGradeNotGraded | dashboard/app.py:24-31 | a missing grade loads as "Not Graded"; a present grade keeps the category of its own value |
| Load.MissingDaysFirstBin | dashboard/app.py:26-48 | a missing day count loads into bin index 0, labelled "0"; a present non-negative count always gets a bin |
| Load.MissingCategoricalUnknown | dashboard/app.py:22-23 | a missing education level or gender loads as "Unknown"; a present one is kept |
| Load.LoadDataDistributes | dashboard/app.py:14-50 | loading a concatenated table is loading each part and concatenating the results |
| Load.LoadedCertifiedCount | dashboard/app.py:19-62 | the Certified stage over the loaded table equals the number of raw rows whose certified flag is set |

## Left out

- Page setup, `st.cache_data` memoisation and every `st.*` call (lines 9-10, 13, 53, 64-66): user-interface plumbing with no logic.
- Reading `cleaned_data.csv` (line 15): file input. The model starts from a sequence of raw rows.
- `pd.to_datetime(..., errors='coerce')` (lines 16-17): library date parsing. Each row carries its start year as `Option<int>`, `None` when the timestamp is absent or unparseable.
- `duration_days` (line 96): a timestamp difference computed by the date library.
- Load.Age: models the age only when both years are present; a non-integer birth year is not modelled.
- `astype(int)` on `certified` (line 19): the raw column is assumed to hold only 0/1 values and is modelled as a boolean. Other inputs are not modelled: `astype(int)` keeps 2 as 2, truncates 0.7 to 0, and fails on values it cannot convert.
- Funnel.ColumnSum: `viewed` and `explored` are modelled as present integers, so the way pandas `.sum()` skips NaN cells is not modelled.
- Binning.Cut: requires strictly increasing edges. pd.cut raises ValueError on other edges, and that error path is not modelled.
- Funnel.ComputeFunnel: Viewed >= Explored >= Certified is not proved, because the code does not enforce it.
- Grading.Classify: uses exact reals, not IEEE doubles. The literals 0.9, 0.8, 0.7 and 0.6 are exact here, while a double literal is a nearby binary value. This matters only for grades strictly between the two.
- Binning.BinDays: counts are integers. pandas holds `ndays_act` as a float column, so fractional values, NaN and `+inf` are not modelled. `+inf` falls in no bin because `[90, inf)` excludes its right end.
- The crosstab percentages, every chart, and the Welch t-test with its p < 0.05 verdict (lines 68-114): floating-point statistics and presentation.
