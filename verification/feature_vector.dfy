/**
  The prediction form's feature vector (mywebapp.py, lines 133-163, 157 and 170-203).

  The form's categorical selections are coded through the fixed tables, and the
  codes, the numeric inputs, the constant demand index and the derived final price
  are laid out as 23 named columns in the order the revenue predictor was trained
  on. Every one of the 21 form inputs reaches the vector, so the vector determines
  the form input it came from; `Decode` recovers it.
 */
module FeatureVector {
  import opened Results
  import opened Encoding

  /** A column's single cell: an integer column or a floating-point column. */
  datatype Value = IntV(i: int) | RealV(r: real)

  datatype Column = Column(name: string, value: Value)

  /** The predictor's column schema, in order. */
  const FeatureNames: seq<string> := [
    "room_type", "customer_segment", "nights_stayed", "booking_lead_time",
    "occupancy_rate", "room_price", "discount_applied", "season", "day_of_week",
    "event_type", "competitor_price", "demand_index", "cancellation_flag",
    "payment_method", "customer_rating", "extra_services", "holiday_season",
    "final_price", "marketing_spend", "customer_feedback", "special_event",
    "booking_month", "avg_daily_rate"]

  /** The placeholder demand index; the form never asks for it. */
  const DemandIndex: real := 1.0

  /** The form's eight categorical selections, as the select boxes return them. */
  datatype Choices = Choices(
    roomType: string,
    segment: string,
    season: string,
    dayOfWeek: string,
    eventType: string,
    paymentMethod: string,
    extraServices: string,
    feedback: string)

  /** The table codes of the eight selections, field for field. */
  datatype Codes = Codes(
    roomType: int,
    segment: int,
    season: int,
    dayOfWeek: int,
    eventType: int,
    paymentMethod: int,
    extraServices: int,
    feedback: int)

  /** The form's numeric entries and 0/1 flags, passed to the predictor as entered. */
  datatype Numbers = Numbers(
    nightsStayed: int,
    leadTime: int,
    occupancyRate: int,
    roomPrice: real,
    discount: real,
    competitorPrice: real,
    cancellationFlag: int,
    customerRating: real,
    holidaySeason: int,
    marketingSpend: real,
    specialEvent: int,
    bookingMonth: int,
    avgDailyRate: real)

  /** What the form hands over on submission. */
  datatype FormInput = FormInput(choices: Choices, numbers: Numbers)

  /** The dictionary lookup that fails, naming the missing label. */
  datatype BuildError = KeyError(key: string)

  /** Every selection is one of the options its select box offers. */
  predicate ChoicesOffered(c: Choices) {
    && c.roomType in RoomOptions
    && c.segment in SegmentOptions
    && c.season in SeasonOptions
    && c.dayOfWeek in DayOptions
    && c.eventType in EventOptions
    && c.paymentMethod in PaymentOptions
    && c.extraServices in ServicesOptions
    && c.feedback in FeedbackOptions
  }

  /** Every number lies within the bounds its widget enforces. */
  predicate NumbersOffered(n: Numbers) {
    && 1 <= n.nightsStayed <= 30
    && 0 <= n.leadTime <= 365
    && 0 <= n.occupancyRate <= 100
    && 50.0 <= n.roomPrice <= 1000.0
    && 0.0 <= n.discount <= 500.0
    && 50.0 <= n.competitorPrice <= 1000.0
    && n.cancellationFlag in {0, 1}
    && 1.0 <= n.customerRating <= 5.0
    && n.holidaySeason in {0, 1}
    && 0.0 <= n.marketingSpend <= 10000.0
    && n.specialEvent in {0, 1}
    && 1 <= n.bookingMonth <= 12
    && 50.0 <= n.avgDailyRate <= 1000.0
  }

  predicate OfferedByForm(f: FormInput) {
    ChoicesOffered(f.choices) && NumbersOffered(f.numbers)
  }

  /** Every selection is a key of its table, so no lookup raises. */
  predicate KnownChoices(c: Choices) {
    && c.roomType in RoomMap
    && c.segment in SegmentMap
    && c.season in SeasonMap
    && c.dayOfWeek in DayMap
    && c.eventType in EventMap
    && c.paymentMethod in PaymentMap
    && c.extraServices in ServicesMap
    && c.feedback in FeedbackMap
  }

  /**
    The final price: the room price scaled by the occupancy percentage. It never
    exceeds the room price, nor falls below zero, for a percentage in 0..100 and a
    non-negative price.
   */
  function FinalPrice(roomPrice: real, occupancyRate: int): (p: real)
    ensures p * 100.0 == roomPrice * occupancyRate as real
    ensures 0 <= occupancyRate <= 100 && roomPrice >= 0.0 ==> 0.0 <= p <= roomPrice
  {
    roomPrice * (occupancyRate as real / 100.0)
  }

  function Names(v: seq<Column>): seq<string> {
    seq(|v|, i requires 0 <= i < |v| => v[i].name)
  }

  /** The eight selections, in the order their columns are written. */
  function Labels(c: Choices): seq<string> {
    [c.roomType, c.segment, c.season, c.dayOfWeek, c.eventType, c.paymentMethod, c.extraServices, c.feedback]
  }

  /** The eight tables, in the same order as `Labels`. */
  function Tables(): seq<map<string, int>> {
    [RoomMap, SegmentMap, SeasonMap, DayMap, EventMap, PaymentMap, ServicesMap, FeedbackMap]
  }

  /** Selection `j` is missing from its table, and every earlier one is a key of its own. */
  predicate FirstMissingAt(c: Choices, j: nat)
    requires j < 8
  {
    && Labels(c)[j] !in Tables()[j]
    && forall i :: 0 <= i < j ==> Labels(c)[i] in Tables()[i]
  }

  /**
    The table lookups, in the order the columns are written: the lookups succeed
    exactly when every selection is a key of its table, and otherwise the error
    names the first selection, in column order, that is missing from its own table.
   */
  function EncodeChoices(c: Choices): (r: Result<Codes, BuildError>)
    ensures r.Ok? <==> KnownChoices(c)
    ensures r.Err? ==> exists j :: 0 <= j < 8 && FirstMissingAt(c, j) && r.error.key == Labels(c)[j]
  {
    if c.roomType !in RoomMap then
      assert FirstMissingAt(c, 0);
      Err(KeyError(c.roomType))
    else if c.segment !in SegmentMap then
      assert FirstMissingAt(c, 1);
      Err(KeyError(c.segment))
    else if c.season !in SeasonMap then
      assert FirstMissingAt(c, 2);
      Err(KeyError(c.season))
    else if c.dayOfWeek !in DayMap then
      assert FirstMissingAt(c, 3);
      Err(KeyError(c.dayOfWeek))
    else if c.eventType !in EventMap then
      assert FirstMissingAt(c, 4);
      Err(KeyError(c.eventType))
    else if c.paymentMethod !in PaymentMap then
      assert FirstMissingAt(c, 5);
      Err(KeyError(c.paymentMethod))
    else if c.extraServices !in ServicesMap then
      assert FirstMissingAt(c, 6);
      Err(KeyError(c.extraServices))
    else if c.feedback !in FeedbackMap then
      assert FirstMissingAt(c, 7);
      Err(KeyError(c.feedback))
    else Ok(Codes(
      RoomMap[c.roomType], SegmentMap[c.segment], SeasonMap[c.season], DayMap[c.dayOfWeek],
      EventMap[c.eventType], PaymentMap[c.paymentMethod], ServicesMap[c.extraServices],
      FeedbackMap[c.feedback]))
  }

  /** The label of each code, read back through the select boxes' option lists. */
  function DecodeCodes(k: Codes): Option<Choices> {
    var roomType :- LabelOf(RoomOptions, 0, k.roomType);
    var segment :- LabelOf(SegmentOptions, 0, k.segment);
    var season :- LabelOf(SeasonOptions, 0, k.season);
    var dayOfWeek :- LabelOf(DayOptions, 0, k.dayOfWeek);
    var eventType :- LabelOf(EventOptions, 0, k.eventType);
    var paymentMethod :- LabelOf(PaymentOptions, 0, k.paymentMethod);
    var extraServices :- LabelOf(ServicesOptions, ServicesOffset, k.extraServices);
    var feedback :- LabelOf(FeedbackOptions, 0, k.feedback);
    Some(Choices(roomType, segment, season, dayOfWeek, eventType, paymentMethod, extraServices, feedback))
  }

  /** The 23 columns, carrying exactly the predictor's schema names in order. */
  function Assemble(k: Codes, n: Numbers): (v: seq<Column>)
    ensures |v| == 23
    ensures Names(v) == FeatureNames
  {
    [
      Column("room_type", IntV(k.roomType)),
      Column("customer_segment", IntV(k.segment)),
      Column("nights_stayed", IntV(n.nightsStayed)),
      Column("booking_lead_time", IntV(n.leadTime)),
      Column("occupancy_rate", IntV(n.occupancyRate)),
      Column("room_price", RealV(n.roomPrice)),
      Column("discount_applied", RealV(n.discount)),
      Column("season", IntV(k.season)),
      Column("day_of_week", IntV(k.dayOfWeek)),
      Column("event_type", IntV(k.eventType)),
      Column("competitor_price", RealV(n.competitorPrice)),
      Column("demand_index", RealV(DemandIndex)),
      Column("cancellation_flag", IntV(n.cancellationFlag)),
      Column("payment_method", IntV(k.paymentMethod)),
      Column("customer_rating", RealV(n.customerRating)),
      Column("extra_services", IntV(k.extraServices)),
      Column("holiday_season", IntV(n.holidaySeason)),
      Column("final_price", RealV(FinalPrice(n.roomPrice, n.occupancyRate))),
      Column("marketing_spend", RealV(n.marketingSpend)),
      Column("customer_feedback", IntV(k.feedback)),
      Column("special_event", IntV(n.specialEvent)),
      Column("booking_month", IntV(n.bookingMonth)),
      Column("avg_daily_rate", RealV(n.avgDailyRate))]
  }

  function IntAt(v: seq<Column>, i: nat): Option<int>
    requires i < |v|
  {
    if v[i].value.IntV? then Some(v[i].value.i) else None
  }

  function RealAt(v: seq<Column>, i: nat): Option<real>
    requires i < |v|
  {
    if v[i].value.RealV? then Some(v[i].value.r) else None
  }

  /**
    Splits a model input back into codes and numbers: the schema names, each
    column's kind, and the two columns the form does not supply (the demand index
    and the final price) must all be as `Assemble` writes them.
   */
  function Disassemble(v: seq<Column>): Option<(Codes, Numbers)> {
    if |v| != |FeatureNames| || Names(v) != FeatureNames then None
    else
      var roomType :- IntAt(v, 0);
      var segment :- IntAt(v, 1);
      var nightsStayed :- IntAt(v, 2);
      var leadTime :- IntAt(v, 3);
      var occupancyRate :- IntAt(v, 4);
      var roomPrice :- RealAt(v, 5);
      var discount :- RealAt(v, 6);
      var season :- IntAt(v, 7);
      var dayOfWeek :- IntAt(v, 8);
      var eventType :- IntAt(v, 9);
      var competitorPrice :- RealAt(v, 10);
      var cancellationFlag :- IntAt(v, 12);
      var paymentMethod :- IntAt(v, 13);
      var customerRating :- RealAt(v, 14);
      var extraServices :- IntAt(v, 15);
      var holidaySeason :- IntAt(v, 16);
      var marketingSpend :- RealAt(v, 18);
      var feedback :- IntAt(v, 19);
      var specialEvent :- IntAt(v, 20);
      var bookingMonth :- IntAt(v, 21);
      var avgDailyRate :- RealAt(v, 22);
      if v[11].value != RealV(DemandIndex) then None
      else if v[17].value != RealV(FinalPrice(roomPrice, occupancyRate)) then None
      else Some((
        Codes(roomType, segment, season, dayOfWeek, eventType, paymentMethod, extraServices, feedback),
        Numbers(nightsStayed, leadTime, occupancyRate, roomPrice, discount, competitorPrice,
                cancellationFlag, customerRating, holidaySeason, marketingSpend, specialEvent,
                bookingMonth, avgDailyRate)))
  }

  /**
    The model input built from a submitted form, or the key error a lookup raises:
    it builds exactly when every selection is known, always with the predictor's
    23-column schema, and otherwise passes on the lookups' error unchanged.
   */
  function Build(f: FormInput): (r: Result<seq<Column>, BuildError>)
    ensures r.Ok? <==> KnownChoices(f.choices)
    ensures r.Ok? ==> |r.value| == 23 && Names(r.value) == FeatureNames
    ensures r.Err? ==> EncodeChoices(f.choices).Err? && r.error == EncodeChoices(f.choices).error
  {
    match EncodeChoices(f.choices)
    case Err(e) => Err(e)
    case Ok(k) => Ok(Assemble(k, f.numbers))
  }

  /** Reads a model input back into the form input it was built from. */
  function Decode(v: seq<Column>): Option<FormInput> {
    var (k, n) :- Disassemble(v);
    var c :- DecodeCodes(k);
    Some(FormInput(c, n))
  }

  /** Decoding the codes of known selections gives the selections back. */
  lemma DecodeEncodeChoices(c: Choices)
    requires KnownChoices(c)
    ensures DecodeCodes(EncodeChoices(c).value) == Some(c)
  {
    TablesMatchForm();
    IndexCodedDecodes(RoomMap, RoomOptions, 0, c.roomType);
    IndexCodedDecodes(SegmentMap, SegmentOptions, 0, c.segment);
    IndexCodedDecodes(SeasonMap, SeasonOptions, 0, c.season);
    IndexCodedDecodes(DayMap, DayOptions, 0, c.dayOfWeek);
    IndexCodedDecodes(EventMap, EventOptions, 0, c.eventType);
    IndexCodedDecodes(PaymentMap, PaymentOptions, 0, c.paymentMethod);
    IndexCodedDecodes(ServicesMap, ServicesOptions, ServicesOffset, c.extraServices);
    IndexCodedDecodes(FeedbackMap, FeedbackOptions, 0, c.feedback);
  }

  /** Codes that decode to labels are exactly the codes those labels encode to. */
  lemma EncodeDecodeCodes(k: Codes)
    requires DecodeCodes(k).Some?
    ensures EncodeChoices(DecodeCodes(k).value) == Ok(k)
  {
    TablesMatchForm();
    IndexCodedEncodes(RoomMap, RoomOptions, 0, k.roomType);
    IndexCodedEncodes(SegmentMap, SegmentOptions, 0, k.segment);
    IndexCodedEncodes(SeasonMap, SeasonOptions, 0, k.season);
    IndexCodedEncodes(DayMap, DayOptions, 0, k.dayOfWeek);
    IndexCodedEncodes(EventMap, EventOptions, 0, k.eventType);
    IndexCodedEncodes(PaymentMap, PaymentOptions, 0, k.paymentMethod);
    IndexCodedEncodes(ServicesMap, ServicesOptions, ServicesOffset, k.extraServices);
    IndexCodedEncodes(FeedbackMap, FeedbackOptions, 0, k.feedback);
  }

  /** Splitting an assembled vector gives back its codes and numbers. */
  lemma DisassembleAssemble(k: Codes, n: Numbers)
    ensures Disassemble(Assemble(k, n)) == Some((k, n))
  {
  }

  /** Every vector `Disassemble` accepts is what `Assemble` writes for its parts. */
  lemma AssembleDisassemble(v: seq<Column>)
    requires Disassemble(v).Some?
    ensures Assemble(Disassemble(v).value.0, Disassemble(v).value.1) == v
  {
    var (k, n) := Disassemble(v).value;
    DisassembleReads(v);
    var w := Assemble(k, n);
    assert |w| == |v|;
    forall i | 0 <= i < |v| ensures w[i] == v[i] {
      assert w[i].name == FeatureNames[i] == v[i].name;
    }
  }

  /** What an accepted vector's columns hold, column by column. */
  lemma DisassembleReads(v: seq<Column>)
    requires Disassemble(v).Some?
    ensures |v| == |FeatureNames|
    ensures forall i :: 0 <= i < |v| ==> v[i].name == FeatureNames[i]
    ensures var (k, n) := Disassemble(v).value;
      && v[0].value == IntV(k.roomType)
      && v[1].value == IntV(k.segment)
      && v[2].value == IntV(n.nightsStayed)
      && v[3].value == IntV(n.leadTime)
      && v[4].value == IntV(n.occupancyRate)
      && v[5].value == RealV(n.roomPrice)
      && v[6].value == RealV(n.discount)
      && v[7].value == IntV(k.season)
      && v[8].value == IntV(k.dayOfWeek)
      && v[9].value == IntV(k.eventType)
      && v[10].value == RealV(n.competitorPrice)
      && v[11].value == RealV(DemandIndex)
      && v[12].value == IntV(n.cancellationFlag)
      && v[13].value == IntV(k.paymentMethod)
      && v[14].value == RealV(n.customerRating)
      && v[15].value == IntV(k.extraServices)
      && v[16].value == IntV(n.holidaySeason)
      && v[17].value == RealV(FinalPrice(n.roomPrice, n.occupancyRate))
      && v[18].value == RealV(n.marketingSpend)
      && v[19].value == IntV(k.feedback)
      && v[20].value == IntV(n.specialEvent)
      && v[21].value == IntV(n.bookingMonth)
      && v[22].value == RealV(n.avgDailyRate)
  {
  }

  /** Decoding a built vector recovers the form input: no selection or number is lost. */
  lemma DecodeBuild(f: FormInput)
    requires KnownChoices(f.choices)
    ensures Build(f).Ok?
    ensures Decode(Build(f).value) == Some(f)
  {
    var k := EncodeChoices(f.choices).value;
    DisassembleAssemble(k, f.numbers);
    DecodeEncodeChoices(f.choices);
  }

  /** Every vector the decoder accepts is exactly what the builder makes of the decoded input. */
  lemma BuildDecode(v: seq<Column>)
    requires Decode(v).Some?
    ensures Build(Decode(v).value) == Ok(v)
  {
    var (k, n) := Disassemble(v).value;
    EncodeDecodeCodes(k);
    AssembleDisassemble(v);
  }

  /** Two form inputs that build the same vector are the same input. */
  lemma BuildInjective(f: FormInput, g: FormInput)
    requires Build(f).Ok?
    requires Build(f) == Build(g)
    ensures f == g
  {
    DecodeBuild(f);
    DecodeBuild(g);
  }

  /** Whatever the form offers is encoded: submitting it never raises a key error. */
  lemma FormInputsAlwaysBuild(f: FormInput)
    requires OfferedByForm(f)
    ensures Build(f).Ok?
  {
    CodeRanges();
  }

  /**
    The columns the form does not supply directly: the demand index is 1.0 whatever
    the input, and the final price is the room price times occupancy over 100,
    between 0 and the room price for any input the form offers.
   */
  lemma DerivedColumns(f: FormInput, g: FormInput)
    requires Build(f).Ok? && Build(g).Ok?
    ensures Build(f).value[11] == Build(g).value[11] == Column("demand_index", RealV(1.0))
    ensures Build(f).value[17].name == "final_price"
    ensures Build(f).value[17].value.RealV?
    ensures Build(f).value[17].value.r * 100.0 == f.numbers.roomPrice * f.numbers.occupancyRate as real
    ensures OfferedByForm(f) ==> 0.0 <= Build(f).value[17].value.r <= f.numbers.roomPrice
  {
  }

  /** Each categorical column holds its selection's table code. */
  lemma CategoricalColumnsHoldCodes(f: FormInput)
    requires KnownChoices(f.choices)
    ensures Build(f).Ok?
    ensures Build(f).value[0] == Column("room_type", IntV(RoomMap[f.choices.roomType]))
    ensures Build(f).value[1] == Column("customer_segment", IntV(SegmentMap[f.choices.segment]))
    ensures Build(f).value[7] == Column("season", IntV(SeasonMap[f.choices.season]))
    ensures Build(f).value[8] == Column("day_of_week", IntV(DayMap[f.choices.dayOfWeek]))
    ensures Build(f).value[9] == Column("event_type", IntV(EventMap[f.choices.eventType]))
    ensures Build(f).value[13] == Column("payment_method", IntV(PaymentMap[f.choices.paymentMethod]))
    ensures Build(f).value[15] == Column("extra_services", IntV(ServicesMap[f.choices.extraServices]))
    ensures Build(f).value[19] == Column("customer_feedback", IntV(FeedbackMap[f.choices.feedback]))
  {
    var c := f.choices;
    var k := EncodeChoices(c).value;
    assert k == Codes(
      RoomMap[c.roomType], SegmentMap[c.segment], SeasonMap[c.season], DayMap[c.dayOfWeek],
      EventMap[c.eventType], PaymentMap[c.paymentMethod], ServicesMap[c.extraServices],
      FeedbackMap[c.feedback]);
    assert Build(f).value == Assemble(k, f.numbers);
  }
}
