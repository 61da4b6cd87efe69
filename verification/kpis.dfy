/**
  The "Key Metrics" cards over the filtered view (mywebapp.py, lines 74-75):
  the number of bookings and the summed total revenue. Revenue is a real number;
  the dashboard's floating-point accumulation is not modelled.
 */
module Kpis {
  import opened Selection
  import opened BookingFilter

  /** "Total Bookings": the number of rows in a view. */
  function TotalBookings(view: seq<Booking>): nat {
    |view|
  }

  /**
    "Total Revenue": the sum of the total-revenue column. An empty view sums to
    zero, and a view of non-negative revenues never sums below zero.
   */
  function TotalRevenue(view: seq<Booking>): (r: real)
    ensures view == [] ==> r == 0.0
    ensures (forall i :: 0 <= i < |view| ==> view[i].totalRevenue >= 0.0) ==> r >= 0.0
  {
    if view == [] then 0.0
    else view[0].totalRevenue + TotalRevenue(view[1..])
  }

  /**
    The booking count of the filtered view is the number of table positions whose
    row meets the criteria, and never exceeds the count over the whole table.
   */
  lemma TotalBookingsCountsMatchingRows(df: seq<Booking>, c: Criteria)
    ensures TotalBookings(FilteredView(df, c)) == |set i | 0 <= i < |df| && Matches(df[i], c)|
    ensures TotalBookings(FilteredView(df, c)) <= TotalBookings(df)
  {
    var pos := TruePositions(RowMask(df, c), 0);
    FilteredViewIsMaskSelection(df, c);
    IncreasingCardinality(pos);
    MatchingPositions(df, c);
  }

  /** The positions the criteria mask marks are exactly the positions of matching rows. */
  lemma MatchingPositions(df: seq<Booking>, c: Criteria)
    ensures Entries(TruePositions(RowMask(df, c), 0)) == set i | 0 <= i < |df| && Matches(df[i], c)
  {
    var mask := RowMask(df, c);
    var pos := TruePositions(mask, 0);
    var matching := set i | 0 <= i < |df| && Matches(df[i], c);
    forall i | i in Entries(pos) ensures i in matching {
      var k :| 0 <= k < |pos| && pos[k] == i;
      assert mask[i];
    }
    forall i | i in matching ensures i in Entries(pos) {
      assert mask[i];
    }
  }

  /** A predicate and its negation split the total revenue of a view. */
  lemma {:induction false} RevenueSplits(view: seq<Booking>, p: Booking -> bool, notP: Booking -> bool)
    requires forall b :: notP(b) == !p(b)
    ensures TotalRevenue(Keep(view, p)) + TotalRevenue(Keep(view, notP)) == TotalRevenue(view)
  {
    if view != [] {
      RevenueSplits(view[1..], p, notP);
      if p(view[0]) {
        assert ([view[0]] + Keep(view[1..], p))[1..] == Keep(view[1..], p);
      } else {
        assert ([view[0]] + Keep(view[1..], notP))[1..] == Keep(view[1..], notP);
      }
    }
  }

  /**
    When every cancellation flag is 0 or 1, the "Only Canceled" and "Only Completed"
    views split the "All" view's total revenue.
   */
  lemma CancellationPartitionsRevenue(df: seq<Booking>, c: Criteria)
    requires forall i :: 0 <= i < |df| ==> df[i].cancellationFlag == 0 || df[i].cancellationFlag == 1
    ensures TotalRevenue(FilteredView(df, c.(status := OnlyCanceled)))
          + TotalRevenue(FilteredView(df, c.(status := OnlyCompleted)))
         == TotalRevenue(FilteredView(df, c.(status := All)))
  {
    var sel := SelectionView(df, c);
    SplitByFlag(sel);
    RevenueSplits(sel, StatusTest(OnlyCanceled), NotCanceled());
  }

  /** With non-negative revenues, filtering can only lower the total revenue. */
  lemma FilteredRevenueBound(df: seq<Booking>, c: Criteria)
    requires forall i :: 0 <= i < |df| ==> df[i].totalRevenue >= 0.0
    ensures TotalRevenue(FilteredView(df, c)) <= TotalRevenue(df)
  {
    var view := FilteredView(df, c);
    FilteredViewIsOnePass(df, c);
    RevenueSplits(df, CriteriaTest(c), Rejects(c));
    var dropped := Keep(df, Rejects(c));
    assert forall i :: 0 <= i < |dropped| ==> dropped[i].totalRevenue >= 0.0 by {
      forall i | 0 <= i < |dropped| ensures dropped[i].totalRevenue >= 0.0 {
        assert dropped[i] in dropped;
      }
    }
  }

  function Rejects(c: Criteria): Booking -> bool {
    b => !Matches(b, c)
  }
}
