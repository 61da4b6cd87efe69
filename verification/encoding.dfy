/**
  The fixed label-to-code tables of the prediction form (mywebapp.py, lines 170-177)
  and the option lists the form's select boxes offer (lines 133-161).

  Every table codes each option by its position in the select box's list, shifted
  by a fixed offset (0 for all tables except extra services, where "None" is -1).
  That one fact gives totality over the form's options, injectivity, the code
  ranges, and a decoder from codes back to labels.
 */
module Encoding {
  import opened Results

  const RoomOptions: seq<string> := ["Deluxe", "Double", "Single", "Suite"]
  const SegmentOptions: seq<string> := ["Business", "Group", "Leisure", "Solo"]
  const SeasonOptions: seq<string> := ["Spring", "Summer", "Autumn", "Winter"]
  const DayOptions: seq<string> :=
    ["Monday", "Tuesday", "Wednesday", "Thursday", "Friday", "Saturday", "Sunday"]
  const EventOptions: seq<string> := ["None", "Conference", "Festival", "Exhibition"]
  const PaymentOptions: seq<string> := ["Cash", "Online", "Credit Card"]
  const ServicesOptions: seq<string> := ["None", "Spa", "Breakfast", "Dinner", "All"]
  const FeedbackOptions: seq<string> := ["Negative", "Neutral", "Positive"]

  const RoomMap: map<string, int> := map["Deluxe" := 0, "Double" := 1, "Single" := 2, "Suite" := 3]
  const SegmentMap: map<string, int> := map["Business" := 0, "Group" := 1, "Leisure" := 2, "Solo" := 3]
  const PaymentMap: map<string, int> := map["Cash" := 0, "Online" := 1, "Credit Card" := 2]
  const SeasonMap: map<string, int> := map["Spring" := 0, "Summer" := 1, "Autumn" := 2, "Winter" := 3]
  const DayMap: map<string, int> := map[
    "Monday" := 0, "Tuesday" := 1, "Wednesday" := 2, "Thursday" := 3,
    "Friday" := 4, "Saturday" := 5, "Sunday" := 6]
  const EventMap: map<string, int> := map["None" := 0, "Conference" := 1, "Festival" := 2, "Exhibition" := 3]
  const FeedbackMap: map<string, int> := map["Negative" := 0, "Neutral" := 1, "Positive" := 2]
  const ServicesMap: map<string, int> :=
    map["None" := -1, "Spa" := 0, "Breakfast" := 1, "Dinner" := 2, "All" := 3]

  /** Code offset of the extra-services table, whose first option "None" is coded -1. */
  const ServicesOffset: int := -1

  /**
    `m` has exactly the labels of `options` as keys, and codes the option at
    position `i` as `i + offset`.
   */
  ghost predicate IndexCoded(m: map<string, int>, options: seq<string>, offset: int) {
    && (forall k :: k in m ==> k in options)
    && (forall i :: 0 <= i < |options| ==> options[i] in m && m[options[i]] == i + offset)
  }

  /** No two labels share a code. */
  ghost predicate Injective(m: map<string, int>) {
    forall a, b :: a in m && b in m && a != b ==> m[a] != m[b]
  }

  /** The label a code stands for in an offset-coded option list, if any. */
  function LabelOf(options: seq<string>, offset: int, code: int): (r: Option<string>)
    ensures r.Some? <==> offset <= code < offset + |options|
    ensures r.Some? ==> r.value in options
  {
    if offset <= code < offset + |options| then Some(options[code - offset]) else None
  }

  /** Each table codes the form's options by their position in the select box. */
  lemma TablesMatchForm()
    ensures IndexCoded(RoomMap, RoomOptions, 0)
    ensures IndexCoded(SegmentMap, SegmentOptions, 0)
    ensures IndexCoded(SeasonMap, SeasonOptions, 0)
    ensures IndexCoded(DayMap, DayOptions, 0)
    ensures IndexCoded(EventMap, EventOptions, 0)
    ensures IndexCoded(PaymentMap, PaymentOptions, 0)
    ensures IndexCoded(ServicesMap, ServicesOptions, ServicesOffset)
    ensures IndexCoded(FeedbackMap, FeedbackOptions, 0)
    ensures ServicesMap["None"] == -1
  {
    RoomTable();
    SegmentTable();
    SeasonTable();
    DayTable();
    EventTable();
    PaymentTable();
    ServicesTable();
    FeedbackTable();
  }

  lemma RoomTable() ensures IndexCoded(RoomMap, RoomOptions, 0) {
    assert RoomMap.Keys == {"Deluxe", "Double", "Single", "Suite"};
  }

  lemma SegmentTable() ensures IndexCoded(SegmentMap, SegmentOptions, 0) {
    assert SegmentMap.Keys == {"Business", "Group", "Leisure", "Solo"};
  }

  lemma SeasonTable() ensures IndexCoded(SeasonMap, SeasonOptions, 0) {
    assert SeasonMap.Keys == {"Spring", "Summer", "Autumn", "Winter"};
  }

  lemma DayTable() ensures IndexCoded(DayMap, DayOptions, 0) {
    assert DayMap.Keys
        == {"Monday", "Tuesday", "Wednesday", "Thursday", "Friday", "Saturday", "Sunday"};
  }

  lemma EventTable() ensures IndexCoded(EventMap, EventOptions, 0) {
    assert EventMap.Keys == {"None", "Conference", "Festival", "Exhibition"};
  }

  lemma PaymentTable() ensures IndexCoded(PaymentMap, PaymentOptions, 0) {
    assert PaymentMap.Keys == {"Cash", "Online", "Credit Card"};
  }

  lemma ServicesTable() ensures IndexCoded(ServicesMap, ServicesOptions, ServicesOffset) {
    assert ServicesMap.Keys == {"None", "Spa", "Breakfast", "Dinner", "All"};
  }

  lemma FeedbackTable() ensures IndexCoded(FeedbackMap, FeedbackOptions, 0) {
    assert FeedbackMap.Keys == {"Negative", "Neutral", "Positive"};
  }

  /** An index-coded table has exactly as many keys as options, each option once. */
  lemma IndexCodedInjective(m: map<string, int>, options: seq<string>, offset: int)
    requires IndexCoded(m, options, offset)
    ensures Injective(m)
  {
    forall a, b | a in m && b in m && a != b ensures m[a] != m[b] {
      var i :| 0 <= i < |options| && options[i] == a;
      var j :| 0 <= j < |options| && options[j] == b;
    }
  }

  /** The codes of an index-coded table are exactly the `|options|` integers from `offset`. */
  lemma IndexCodedRange(m: map<string, int>, options: seq<string>, offset: int)
    requires IndexCoded(m, options, offset)
    ensures forall k :: k in m ==> offset <= m[k] < offset + |options|
    ensures forall code :: offset <= code < offset + |options| ==> code in m.Values
  {
    forall k | k in m ensures offset <= m[k] < offset + |options| {
      var i :| 0 <= i < |options| && options[i] == k;
    }
    forall code | offset <= code < offset + |options| ensures code in m.Values {
      assert m[options[code - offset]] == code;
    }
  }

  /** Decoding the code of a table key gives the key back. */
  lemma IndexCodedDecodes(m: map<string, int>, options: seq<string>, offset: int, key: string)
    requires IndexCoded(m, options, offset)
    requires key in m
    ensures LabelOf(options, offset, m[key]) == Some(key)
  {
    var i :| 0 <= i < |options| && options[i] == key;
  }

  /** Whatever a code decodes to is a key of the table that encodes back to that code. */
  lemma IndexCodedEncodes(m: map<string, int>, options: seq<string>, offset: int, code: int)
    requires IndexCoded(m, options, offset)
    requires LabelOf(options, offset, code).Some?
    ensures LabelOf(options, offset, code).value in m
    ensures m[LabelOf(options, offset, code).value] == code
  {
  }

  /**
    Totality and ranges: every select-box option is a key of its table, and the
    codes are room, segment, season and event 0..3, day 0..6, payment and feedback
    0..2, extra services -1..3.
   */
  lemma CodeRanges()
    ensures forall o :: o in RoomOptions ==> o in RoomMap && 0 <= RoomMap[o] <= 3
    ensures forall o :: o in SegmentOptions ==> o in SegmentMap && 0 <= SegmentMap[o] <= 3
    ensures forall o :: o in SeasonOptions ==> o in SeasonMap && 0 <= SeasonMap[o] <= 3
    ensures forall o :: o in EventOptions ==> o in EventMap && 0 <= EventMap[o] <= 3
    ensures forall o :: o in DayOptions ==> o in DayMap && 0 <= DayMap[o] <= 6
    ensures forall o :: o in PaymentOptions ==> o in PaymentMap && 0 <= PaymentMap[o] <= 2
    ensures forall o :: o in FeedbackOptions ==> o in FeedbackMap && 0 <= FeedbackMap[o] <= 2
    ensures forall o :: o in ServicesOptions ==> o in ServicesMap && -1 <= ServicesMap[o] <= 3
  {
    TablesMatchForm();
    Covers(RoomMap, RoomOptions, 0);
    Covers(SegmentMap, SegmentOptions, 0);
    Covers(SeasonMap, SeasonOptions, 0);
    Covers(EventMap, EventOptions, 0);
    Covers(DayMap, DayOptions, 0);
    Covers(PaymentMap, PaymentOptions, 0);
    Covers(FeedbackMap, FeedbackOptions, 0);
    Covers(ServicesMap, ServicesOptions, ServicesOffset);
  }

  /** No table gives two labels the same code. */
  lemma TablesInjective()
    ensures Injective(RoomMap) && Injective(SegmentMap) && Injective(SeasonMap) && Injective(EventMap)
    ensures Injective(DayMap) && Injective(PaymentMap) && Injective(FeedbackMap) && Injective(ServicesMap)
  {
    TablesMatchForm();
    IndexCodedInjective(RoomMap, RoomOptions, 0);
    IndexCodedInjective(SegmentMap, SegmentOptions, 0);
    IndexCodedInjective(SeasonMap, SeasonOptions, 0);
    IndexCodedInjective(EventMap, EventOptions, 0);
    IndexCodedInjective(DayMap, DayOptions, 0);
    IndexCodedInjective(PaymentMap, PaymentOptions, 0);
    IndexCodedInjective(FeedbackMap, FeedbackOptions, 0);
    IndexCodedInjective(ServicesMap, ServicesOptions, ServicesOffset);
  }

  lemma Covers(m: map<string, int>, options: seq<string>, offset: int)
    requires IndexCoded(m, options, offset)
    ensures forall o :: o in options ==> o in m && offset <= m[o] < offset + |options|
  {
    IndexCodedRange(m, options, offset);
  }
}
