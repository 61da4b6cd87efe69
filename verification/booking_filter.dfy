/**
  The dashboard's sidebar filter over the bookings table (mywebapp.py, lines 42-69).

  A booking row is kept when its room type and booking month are among the
  selected ones, its lead time and check-in day lie in the selected inclusive
  ranges, and it agrees with the chosen booking-status mode. Rows keep their
  table order, as a boolean mask over a data frame does. Check-in dates are day
  numbers; only the columns the filter and the key metrics read are modelled.
 */
module BookingFilter {
  import opened Results
  import opened Selection

  /** One row of the bookings table: the columns the filter and the key metrics read. */
  datatype Booking = Booking(
    roomType: string,
    bookingMonth: int,
    leadTime: int,
    checkinDay: int,
    cancellationFlag: int,
    totalRevenue: real)

  /** The three choices of the "Booking Status" radio button. */
  datatype StatusMode = All | OnlyCanceled | OnlyCompleted

  /** The radio button's labels, in the order it offers them. */
  const StatusLabels: seq<string> := ["All", "Only Canceled", "Only Completed"]

  /** The mode a radio label selects: the two named refinements, and no refinement otherwise. */
  function ModeOf(choice: string): (m: StatusMode)
    ensures m == OnlyCanceled <==> choice == "Only Canceled"
    ensures m == OnlyCompleted <==> choice == "Only Completed"
    ensures m == All <==> choice != "Only Canceled" && choice != "Only Completed"
  {
    if choice == "Only Canceled" then OnlyCanceled
    else if choice == "Only Completed" then OnlyCompleted
    else All
  }

  /** The sidebar's column selections: room types, months, and two inclusive ranges. */
  datatype Selections = Selections(
    rooms: set<string>,
    months: set<int>,
    leadLo: int,
    leadHi: int,
    dateLo: int,
    dateHi: int)

  /** The sidebar's current state: the column selections and the status mode. */
  datatype Criteria = Criteria(sel: Selections, status: StatusMode)

  /** The four column conditions of the first mask: set membership and inclusive ranges. */
  predicate MatchesSelections(b: Booking, s: Selections) {
    && b.roomType in s.rooms
    && b.bookingMonth in s.months
    && s.leadLo <= b.leadTime <= s.leadHi
    && s.dateLo <= b.checkinDay <= s.dateHi
  }

  /** The status refinement: canceled rows carry flag 1, completed rows flag 0. */
  predicate MatchesStatus(b: Booking, mode: StatusMode) {
    match mode
    case All => true
    case OnlyCanceled => b.cancellationFlag == 1
    case OnlyCompleted => b.cancellationFlag == 0
  }

  /** Everything a row must satisfy to appear in the filtered view. */
  predicate Matches(b: Booking, c: Criteria) {
    MatchesSelections(b, c.sel) && MatchesStatus(b, c.status)
  }

  function SelectionTest(s: Selections): Booking -> bool {
    b => MatchesSelections(b, s)
  }

  function StatusTest(mode: StatusMode): Booking -> bool {
    b => MatchesStatus(b, mode)
  }

  function CriteriaTest(c: Criteria): Booking -> bool {
    b => Matches(b, c)
  }

  /** The first mask: rows meeting the four column conditions, in table order. */
  function SelectionView(df: seq<Booking>, c: Criteria): (view: seq<Booking>)
    ensures |view| <= |df|
    ensures forall b :: b in view <==> b in df && MatchesSelections(b, c.sel)
  {
    Keep(df, SelectionTest(c.sel))
  }

  /** The status refinement applied to an already selected view; "All" leaves it as it is. */
  function RefineByStatus(view: seq<Booking>, mode: StatusMode): (r: seq<Booking>)
    ensures |r| <= |view|
    ensures forall b :: b in r <==> b in view && MatchesStatus(b, mode)
  {
    match mode
    case All => view
    case OnlyCanceled => Keep(view, StatusTest(OnlyCanceled))
    case OnlyCompleted => Keep(view, StatusTest(OnlyCompleted))
  }

  /**
    The filtered view the dashboard shows: every row in it is a row of the table
    meeting all the criteria, and every such row of the table is in it.
   */
  function FilteredView(df: seq<Booking>, c: Criteria): (view: seq<Booking>)
    ensures |view| <= |df|
    ensures forall b :: b in view ==> b in df && Matches(b, c)
    ensures forall i :: 0 <= i < |df| && Matches(df[i], c) ==> df[i] in view
  {
    RefineByStatus(SelectionView(df, c), c.status)
  }

  /** The mask of the whole criteria, row by row over the table. */
  function RowMask(df: seq<Booking>, c: Criteria): seq<bool> {
    Mask(df, CriteriaTest(c))
  }

  /** The two-stage filter equals a single pass with the conjunction of all conditions. */
  lemma FilteredViewIsOnePass(df: seq<Booking>, c: Criteria)
    ensures FilteredView(df, c) == Keep(df, CriteriaTest(c))
  {
    var sel := SelectionView(df, c);
    match c.status
    case All =>
      KeepCongruent(df, SelectionTest(c.sel), CriteriaTest(c));
    case OnlyCanceled =>
      KeepKeep(df, SelectionTest(c.sel), StatusTest(OnlyCanceled), CriteriaTest(c));
    case OnlyCompleted =>
      KeepKeep(df, SelectionTest(c.sel), StatusTest(OnlyCompleted), CriteriaTest(c));
  }

  /**
    Completeness and order: the filtered view is exactly the table's rows at the
    increasing positions where the criteria mask is true.
   */
  lemma FilteredViewIsMaskSelection(df: seq<Booking>, c: Criteria)
    ensures FilteredView(df, c) == Select(df, TruePositions(RowMask(df, c), 0))
  {
    FilteredViewIsOnePass(df, c);
    KeepIsMaskSelection(df, CriteriaTest(c));
  }

  /** A row value is in the filtered view exactly when it is in the table and meets the criteria. */
  lemma FilteredMembership(df: seq<Booking>, c: Criteria, b: Booking)
    ensures b in FilteredView(df, c) <==> b in df && Matches(b, c)
  {
    if b in df && Matches(b, c) {
      var i :| 0 <= i < |df| && df[i] == b;
    }
  }

  /**
    The status mode only removes rows from the "All" view: each row value keeps its
    multiplicity when it matches the mode and disappears otherwise.
   */
  lemma StatusRefinesAllView(df: seq<Booking>, c: Criteria, x: Booking)
    ensures multiset(FilteredView(df, c))[x]
         == if MatchesStatus(x, c.status) then multiset(FilteredView(df, c.(status := All)))[x] else 0
  {
    assert FilteredView(df, c.(status := All)) == SelectionView(df, c);
    match c.status
    case All =>
    case OnlyCanceled =>
      KeepMultiset(SelectionView(df, c), StatusTest(OnlyCanceled), x);
    case OnlyCompleted =>
      KeepMultiset(SelectionView(df, c), StatusTest(OnlyCompleted), x);
  }

  /** Applying the same criteria to the filtered view returns the filtered view. */
  lemma FilterIdempotent(df: seq<Booking>, c: Criteria)
    ensures FilteredView(FilteredView(df, c), c) == FilteredView(df, c)
  {
    FilteredViewIsOnePass(df, c);
    FilteredViewIsOnePass(FilteredView(df, c), c);
    KeepIdempotent(df, CriteriaTest(c));
  }

  /** An inverted range, or an empty room or month selection, leaves nothing to show. */
  lemma UnsatisfiableCriteriaGiveEmptyView(df: seq<Booking>, c: Criteria)
    requires c.sel.leadLo > c.sel.leadHi || c.sel.dateLo > c.sel.dateHi || c.sel.rooms == {} || c.sel.months == {}
    ensures FilteredView(df, c) == []
  {
    FilteredViewIsOnePass(df, c);
    KeepNone(df, CriteriaTest(c));
  }

  /** Both ranges are inclusive: a one-day, one-lead-time range keeps the rows on that point. */
  lemma PointRangesKeepTheirRows(df: seq<Booking>, c: Criteria, i: int)
    requires 0 <= i < |df|
    requires df[i].roomType in c.sel.rooms && df[i].bookingMonth in c.sel.months
    requires MatchesStatus(df[i], c.status)
    ensures df[i] in FilteredView(df, c.(sel := c.sel.(leadLo := df[i].leadTime, leadHi := df[i].leadTime,
                                                      dateLo := df[i].checkinDay, dateHi := df[i].checkinDay)))
  {
  }

  /**
    When every cancellation flag is 0 or 1, the "Only Canceled" and "Only Completed"
    views together have as many rows as the "All" view.
   */
  lemma {:induction false} CancellationPartitionsCount(df: seq<Booking>, c: Criteria)
    requires forall i :: 0 <= i < |df| ==> df[i].cancellationFlag == 0 || df[i].cancellationFlag == 1
    ensures |FilteredView(df, c.(status := OnlyCanceled))| + |FilteredView(df, c.(status := OnlyCompleted))|
         == |FilteredView(df, c.(status := All))|
  {
    var sel := SelectionView(df, c);
    SplitByFlag(sel);
  }

  /** On rows whose flags are 0 or 1, the completed rows are exactly the non-canceled ones. */
  lemma SplitByFlag(view: seq<Booking>)
    requires forall b :: b in view ==> b.cancellationFlag == 0 || b.cancellationFlag == 1
    ensures |Keep(view, StatusTest(OnlyCanceled))| + |Keep(view, StatusTest(OnlyCompleted))| == |view|
    ensures Keep(view, StatusTest(OnlyCompleted)) == Keep(view, NotCanceled())
  {
    KeepPartitionLength(view, StatusTest(OnlyCanceled), NotCanceled());
    KeepCongruent(view, StatusTest(OnlyCompleted), NotCanceled());
  }

  function NotCanceled(): Booking -> bool {
    b => !MatchesStatus(b, OnlyCanceled)
  }

  /** The least element of a non-empty sequence (a column's minimum). */
  function Min(xs: seq<int>): (m: int)
    requires |xs| > 0
    ensures m in xs
    ensures forall i :: 0 <= i < |xs| ==> m <= xs[i]
  {
    if |xs| == 1 then xs[0]
    else if xs[0] <= Min(xs[1..]) then xs[0]
    else Min(xs[1..])
  }

  /** The greatest element of a non-empty sequence (a column's maximum). */
  function Max(xs: seq<int>): (m: int)
    requires |xs| > 0
    ensures m in xs
    ensures forall i :: 0 <= i < |xs| ==> xs[i] <= m
  {
    if |xs| == 1 then xs[0]
    else if xs[0] >= Max(xs[1..]) then xs[0]
    else Max(xs[1..])
  }

  function LeadTimes(df: seq<Booking>): seq<int> {
    seq(|df|, i requires 0 <= i < |df| => df[i].leadTime)
  }

  function CheckinDays(df: seq<Booking>): seq<int> {
    seq(|df|, i requires 0 <= i < |df| => df[i].checkinDay)
  }

  /**
    The sidebar's initial state: every room type and month present, the full
    lead-time and check-in ranges of the table, and status "All". The minimum of an
    empty column is not a number, and converting it to an integer raises, so an
    empty table has no initial state.
   */
  function DefaultCriteria(df: seq<Booking>): (r: Option<Criteria>)
    ensures r.None? <==> df == []
    ensures r.Some? ==> r.value.status == All
  {
    if df == [] then None
    else
      var sel := Selections(
        set i | 0 <= i < |df| :: df[i].roomType,
        set i | 0 <= i < |df| :: df[i].bookingMonth,
        Min(LeadTimes(df)), Max(LeadTimes(df)),
        Min(CheckinDays(df)), Max(CheckinDays(df)));
      Some(Criteria(sel, ModeOf(StatusLabels[0])))
  }

  /** With the sidebar untouched, the filtered view of a non-empty table is the whole table. */
  lemma DefaultCriteriaKeepEveryRow(df: seq<Booking>)
    requires df != []
    ensures DefaultCriteria(df).Some?
    ensures FilteredView(df, DefaultCriteria(df).value) == df
  {
    var c := DefaultCriteria(df).value;
    forall i | 0 <= i < |df| ensures MatchesSelections(df[i], c.sel) {
      assert LeadTimes(df)[i] == df[i].leadTime;
      assert CheckinDays(df)[i] == df[i].checkinDay;
    }
    KeepAll(df, SelectionTest(c.sel));
  }

  /**
    The initial ranges are the table's extent: each bound is attained by some row,
    and every row lies within both ranges; the initial room and month selections
    are exactly the values present in the table.
   */
  lemma DefaultRangesAreTableExtent(df: seq<Booking>)
    requires df != []
    ensures DefaultCriteria(df).Some?
    ensures var s := DefaultCriteria(df).value.sel;
      && (forall i :: 0 <= i < |df| ==> s.leadLo <= df[i].leadTime <= s.leadHi)
      && (forall i :: 0 <= i < |df| ==> s.dateLo <= df[i].checkinDay <= s.dateHi)
      && (exists i :: 0 <= i < |df| && df[i].leadTime == s.leadLo)
      && (exists i :: 0 <= i < |df| && df[i].leadTime == s.leadHi)
      && (exists i :: 0 <= i < |df| && df[i].checkinDay == s.dateLo)
      && (exists i :: 0 <= i < |df| && df[i].checkinDay == s.dateHi)
      && (forall r :: r in s.rooms <==> exists i :: 0 <= i < |df| && df[i].roomType == r)
      && (forall m :: m in s.months <==> exists i :: 0 <= i < |df| && df[i].bookingMonth == m)
  {
    var s := DefaultCriteria(df).value.sel;
    var leads, days := LeadTimes(df), CheckinDays(df);
    forall i | 0 <= i < |df| ensures leads[i] == df[i].leadTime && days[i] == df[i].checkinDay {
    }
    var a :| 0 <= a < |leads| && leads[a] == s.leadLo;
    var b :| 0 <= b < |leads| && leads[b] == s.leadHi;
    var d :| 0 <= d < |days| && days[d] == s.dateLo;
    var e :| 0 <= e < |days| && days[e] == s.dateHi;
  }

  /** The radio labels select the three modes, in order, and no two alike. */
  lemma RadioLabelsSelectEachMode()
    ensures ModeOf(StatusLabels[0]) == All
    ensures ModeOf(StatusLabels[1]) == OnlyCanceled
    ensures ModeOf(StatusLabels[2]) == OnlyCompleted
  {
  }
}
