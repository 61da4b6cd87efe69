# Hotel revenue dashboard: filter, key metrics and feature vector

A Dafny model of the pure core of `mywebapp.py`, a one-page Streamlit dashboard over a
table of hotel bookings. The model covers three pieces.

- **Booking filter** (`BookingFilter`, on the generic row selection of `Selection`).
  The sidebar's selections are room types, booking months, an inclusive lead-time range
  and an inclusive check-in range. The first boolean mask keeps the rows meeting all
  four. The status radio then refines that view to canceled rows (flag 1), completed
  rows (flag 0), or leaves it alone ("All", or any other label). Rows keep their table
  order, as boolean-mask indexing of a data frame does. Check-in dates are day numbers.
- **Key metrics** (`Kpis`). "Total Bookings" is the row count of the filtered view.
  "Total Revenue" is the sum of its `total_revenue` column, as a real number.
- **Feature vector** (`Encoding`, `FeatureVector`). Eight fixed label-to-code tables turn
  the prediction form's selections into integer codes. The codes, the 13 numeric form
  entries, the constant demand index 1.0 and the derived final price
  (room price × occupancy / 100) form 23 named columns, in the predictor's order. A
  selection missing from its table is a key error. `Decode` reads a vector back into
  the form input, and `Build` and `Decode` are proved mutually inverse.

Files: `results.dfy` (Option/Result), `selection.dfy` (order-preserving filtering and
mask selection), `booking_filter.dfy`, `kpis.dfy`, `encoding.dfy`, `feature_vector.dfy`.

Two facts about the code shape the model:

- `payment_method` is passed as column 14 (line 193), so every form input reaches the
  vector and `Build` is injective.
- The status modes compare `cancellation_flag` with the integers 1 and 0 (lines 67, 69).
  A row whose flag is neither appears only under "All", so the partition lemmas require
  every flag to be 0 or 1.

## Model

| member | source | states |
|---|---|---|
| Selection.Keep | mywebapp.py:57-64 | every kept row is a row of the input satisfying the test; every input row satisfying it is kept; never longer than the input |
| Selection.KeepIsMaskSelection | mywebapp.py:57-64 | filtering equals taking the rows at the increasing positions where the row-by-row mask is true |
| BookingFilter.SelectionView | mywebapp.py:57-64 | the first mask: a row value is in the view if and only if it is a table row meeting room, month and both inclusive ranges; never longer than the table (order and multiplicity: `FilteredViewIsOnePass` with `KeepIsMaskSelection`) |
| BookingFilter.ModeOf | mywebapp.py:55-69 | "Only Canceled" and "Only Completed" select their refinements, and exactly every other label leaves the view unrefined, as the if/elif with no else does |
| BookingFilter.RefineByStatus | mywebapp.py:66-69 | a row value survives the refinement if and only if it is in the view and has flag 1 (canceled), flag 0 (completed), or the mode is "All"; never longer than the view (multiplicities: `StatusRefinesAllView`) |
| BookingFilter.FilteredView | mywebapp.py:57-69 | soundness: every row shown is a table row meeting room, month, both inclusive ranges and the status mode; completeness: every such table row is shown; at most as many rows as the table |
| BookingFilter.FilteredViewIsOnePass | mywebapp.py:57-69 | the two-stage filter (column mask, then status refinement) equals one pass with the conjunction of all conditions |
| BookingFilter.FilteredViewIsMaskSelection | mywebapp.py:57-69 | order and no duplicates: the view, status refinement included, is exactly the table rows at the strictly increasing positions where the criteria mask is true |
| BookingFilter.FilteredMembership | mywebapp.py:57-69 | a row value is in the view if and only if it is in the table and meets the criteria |
| BookingFilter.StatusRefinesAllView | mywebapp.py:66-69 | "All" adds no restriction; "Only Canceled" and "Only Completed" keep each row of the "All" view with flag 1, resp. 0, with its multiplicity, and drop the rest |
| BookingFilter.FilterIdempotent | mywebapp.py:57-69 | applying the same criteria to the filtered view returns it unchanged |
| BookingFilter.UnsatisfiableCriteriaGiveEmptyView | mywebapp.py:57-63 | an inverted lead-time or date range, or an empty room or month selection, gives an empty view |
| BookingFilter.PointRangesKeepTheirRows | mywebapp.py:60-63 | both ranges are inclusive at each end: a range that is a single lead time and a single day keeps the rows on that point |
| BookingFilter.CancellationPartitionsCount | mywebapp.py:66-74 | with all flags 0 or 1, the canceled and completed views' booking counts add up to the "All" view's |
| BookingFilter.DefaultCriteria | mywebapp.py:42-55 | the sidebar has an initial state exactly when the table is non-empty (the integer conversion of an empty column's minimum raises at line 48), and that state's status mode is "All" |
| BookingFilter.Min | mywebapp.py:48-51 | the least entry of a non-empty column: it occurs in the column and no entry is below it |
| BookingFilter.Max | mywebapp.py:48-52 | the greatest entry of a non-empty column: it occurs in the column and no entry is above it |
| BookingFilter.DefaultRangesAreTableExtent | mywebapp.py:42-52 | the initial lead-time and check-in ranges are the table's extent (each bound is some row's value, every row lies within), and the initial room and month selections are exactly the values present in the table |
| BookingFilter.DefaultCriteriaKeepEveryRow | mywebapp.py:42-55 | for a non-empty table, the sidebar's initial state (all room types and months present, the table's full lead-time and date ranges, "All") shows the whole table |
| BookingFilter.RadioLabelsSelectEachMode | mywebapp.py:55-69 | the radio's three labels select "All", "Only Canceled" and "Only Completed" in order |
| Kpis.TotalBookings | mywebapp.py:74 | "Total Bookings" is the view's row count; what that count means is stated by `TotalBookingsCountsMatchingRows` |
| Kpis.TotalRevenue | mywebapp.py:75 | an empty view sums to 0; a view of non-negative revenues never sums below 0 |
| Kpis.TotalBookingsCountsMatchingRows | mywebapp.py:57-74 | "Total Bookings" equals the number of table positions whose row meets the criteria, and is at most the table's row count |
| Kpis.CancellationPartitionsRevenue | mywebapp.py:66-75 | with all flags 0 or 1, the canceled and completed views' total revenues add up to the "All" view's |
| Kpis.FilteredRevenueBound | mywebapp.py:57-75 | with non-negative revenues, the filtered total revenue is at most the table's |
| Encoding.TablesMatchForm | mywebapp.py:133-177 | each table's keys are exactly its select box's options, coded by position (from -1 for extra services, so "None" is -1; from 0 otherwise) |
| Encoding.CodeRanges | mywebapp.py:170-177 | every offered option is a key; codes are room, segment, season, event 0..3, day 0..6, payment, feedback 0..2, services -1..3 |
| Encoding.TablesInjective | mywebapp.py:170-177 | no table gives two labels the same code |
| Encoding.IndexCodedDecodes | mywebapp.py:170-177 | for a position-coded table, reading a key's code back through the option list gives the key |
| Encoding.IndexCodedEncodes | mywebapp.py:170-177 | for a position-coded table, a code that reads back to a label is that label's code |
| FeatureVector.FinalPrice | mywebapp.py:157 | final price × 100 = room price × occupancy rate; between 0 and the room price for an occupancy in 0..100 and a non-negative price |
| FeatureVector.EncodeChoices | mywebapp.py:170-199 | the lookups succeed exactly when every selection is a key of its table; on failure the key error names the first selection, in column order (room, segment, season, day, event, payment, services, feedback), missing from its own table |
| FeatureVector.Assemble | mywebapp.py:179-203 | the assembled vector has 23 columns whose names are exactly the schema, in order |
| FeatureVector.Build | mywebapp.py:179-203 | the model input builds exactly when every selection is a key of its table, always with 23 columns named as the schema, in order; otherwise the lookups' key error is passed on unchanged |
| FeatureVector.DecodeEncodeChoices | mywebapp.py:170-199 | decoding the codes of known selections gives the selections back |
| FeatureVector.EncodeDecodeCodes | mywebapp.py:170-199 | codes that decode to labels are exactly the codes of those labels |
| FeatureVector.DisassembleAssemble | mywebapp.py:179-203 | splitting an assembled vector gives back its codes and numbers |
| FeatureVector.AssembleDisassemble | mywebapp.py:179-203 | every vector the splitter accepts is what assembly writes for its parts |
| FeatureVector.DisassembleReads | mywebapp.py:179-203 | an accepted vector has the schema's names, and each column holds the code or number it was split into |
| FeatureVector.DecodeBuild | mywebapp.py:179-203 | building succeeds for known selections, and decoding the built vector recovers the whole form input |
| FeatureVector.BuildDecode | mywebapp.py:179-203 | every vector the decoder accepts is exactly the vector built from the decoded input |
| FeatureVector.BuildInjective | mywebapp.py:179-203 | two form inputs that build the same vector are equal |
| FeatureVector.FormInputsAlwaysBuild | mywebapp.py:133-199 | any input the form's widgets can produce builds without a key error |
| FeatureVector.DerivedColumns | mywebapp.py:157-197 | column 12 is `demand_index` = 1.0 for every input; column 18 is `final_price`, room price × occupancy / 100, within [0, room price] for form inputs |
| FeatureVector.CategoricalColumnsHoldCodes | mywebapp.py:179-199 | each categorical column holds its selection's table code under its schema name |

## Left out

- Loading the table from SQLite and the `@st.cache_data` memoisation (lines 14-22): database I/O and framework caching. The table is a parameter.
- Widget rendering, layout, markdown, the data preview and the CSV download (lines 11, 25-55, 72-73, 129-165, 205, 209-219): presentation only. What the widgets contribute to the logic is modelled as constants and plain inputs: the sidebar defaults (`DefaultCriteria`), the radio labels (`StatusLabels`), the select boxes' option lists (`RoomOptions` and the rest) and the number inputs' bounds (`NumbersOffered`).
- The charts (lines 82-126): monthly resampling, group-by means and plotting happen inside pandas and plotting libraries, over floats.
- The "Avg Daily Rate" card (line 76): a floating-point mean and dollar formatting; the mean of an empty view is NaN, a float behaviour not modelled.
- Loading and calling the pickled XGBoost model (lines 168, 206): an opaque foreign call. The model stops at the vector handed to it.
- Time of day and date conversion (lines 18, 62-63): check-in dates are integer day numbers. Line 63 compares with midnight of the last selected day, so the dashboard drops a check-in later on that day, while the model keeps it. `DefaultCriteriaKeepEveryRow` therefore holds in the dashboard only for check-ins without a time of day. A date picker returning a single date is not modelled.
- SQL NULL cells: every `Booking` field holds a value, so a NULL read as NaN/NaT is not modelled. In the dashboard such a lead time or check-in date fails every comparison at lines 60-63, so its row is dropped even under the initial sidebar state, and `.sum()` at line 75 skips a NaN revenue. `DefaultCriteriaKeepEveryRow` and the revenue lemmas hold for NULL-free tables.
- The empty table: `DefaultCriteria` returns no state for it, where the dashboard raises at line 48 and stops; the error itself is not modelled beyond that absence.
- Booking columns that neither the filter nor the modelled key metrics read: the record holds only the six columns used.
- Kpis.TotalRevenue: sums exact reals, not 64-bit floats, so rounding in the floating-point sum is not modelled.
- FeatureVector.FinalPrice: computes in exact reals, not 64-bit floats, so `final_price` may differ from the dashboard's in the last bits.
