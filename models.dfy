/**
 * The request and response schemas of the forecasting API: the 22-field
 * prediction record with its declarative range rules, the batch request built
 * from such records, and the prediction response.
 */
module Models {
  import opened Wrappers

  /** The 22 fields of a prediction record, in declaration order. */
  datatype Field =
    | DayOfWeek | Month | Quarter | IsWeekend
    | Promo | SchoolHoliday
    | SalesLag1 | SalesLag7 | SalesLag14 | SalesLag30
    | CustomersLag1 | CustomersLag7
    | SalesRollingMean7 | SalesRollingMean14 | SalesRollingStd7 | SalesRollingStd14
    | SalesPerCustomer
    | Store | Open | StoreType | Assortment | CompetitionDistance

  /** A prediction record; integer fields are `int`, float fields `real`. */
  datatype PredictionInput = PredictionInput(
    dayOfWeek: int, month: int, quarter: int, isWeekend: int,
    promo: real, schoolHoliday: int,
    salesLag1: real, salesLag7: real, salesLag14: real, salesLag30: real,
    customersLag1: real, customersLag7: real,
    salesRollingMean7: real, salesRollingMean14: real,
    salesRollingStd7: real, salesRollingStd14: real,
    salesPerCustomer: real,
    store: int, open: int, storeType: int, assortment: int,
    competitionDistance: real)

  /** The declared type of a field. */
  datatype Kind = IntField | FloatField

  /** The bounds given to a field declaration: `ge`, `gt` and `le`, each optional. */
  datatype Rule = Rule(ge: Option<real>, gt: Option<real>, le: Option<real>)

  /** The field declared at position i. */
  function FieldAt(i: int): Field
    requires 0 <= i < 22
  {
    if i == 0 then DayOfWeek
    else if i == 1 then Month
    else if i == 2 then Quarter
    else if i == 3 then IsWeekend
    else if i == 4 then Promo
    else if i == 5 then SchoolHoliday
    else if i == 6 then SalesLag1
    else if i == 7 then SalesLag7
    else if i == 8 then SalesLag14
    else if i == 9 then SalesLag30
    else if i == 10 then CustomersLag1
    else if i == 11 then CustomersLag7
    else if i == 12 then SalesRollingMean7
    else if i == 13 then SalesRollingMean14
    else if i == 14 then SalesRollingStd7
    else if i == 15 then SalesRollingStd14
    else if i == 16 then SalesPerCustomer
    else if i == 17 then Store
    else if i == 18 then Open
    else if i == 19 then StoreType
    else if i == 20 then Assortment
    else CompetitionDistance
  }

  /** The position at which a field is declared. */
  function Position(f: Field): (r: nat)
    ensures r < 22
  {
    match f
    case DayOfWeek => 0
    case Month => 1
    case Quarter => 2
    case IsWeekend => 3
    case Promo => 4
    case SchoolHoliday => 5
    case SalesLag1 => 6
    case SalesLag7 => 7
    case SalesLag14 => 8
    case SalesLag30 => 9
    case CustomersLag1 => 10
    case CustomersLag7 => 11
    case SalesRollingMean7 => 12
    case SalesRollingMean14 => 13
    case SalesRollingStd7 => 14
    case SalesRollingStd14 => 15
    case SalesPerCustomer => 16
    case Store => 17
    case Open => 18
    case StoreType => 19
    case Assortment => 20
    case CompetitionDistance => 21
  }

  /** The fields in declaration order. */
  function DeclaredFields(): (r: seq<Field>)
    ensures |r| == 22
  {
    seq(22, i requires 0 <= i < 22 => FieldAt(i))
  }

  /** The attribute name of a field, as clients spell it in JSON. */
  function Name(f: Field): string {
    match f
    case DayOfWeek => "DayOfWeek"
    case Month => "Month"
    case Quarter => "Quarter"
    case IsWeekend => "IsWeekend"
    case Promo => "Promo"
    case SchoolHoliday => "SchoolHoliday"
    case SalesLag1 => "Sales_Lag_1"
    case SalesLag7 => "Sales_Lag_7"
    case SalesLag14 => "Sales_Lag_14"
    case SalesLag30 => "Sales_Lag_30"
    case CustomersLag1 => "Customers_Lag_1"
    case CustomersLag7 => "Customers_Lag_7"
    case SalesRollingMean7 => "Sales_Rolling_Mean_7"
    case SalesRollingMean14 => "Sales_Rolling_Mean_14"
    case SalesRollingStd7 => "Sales_Rolling_Std_7"
    case SalesRollingStd14 => "Sales_Rolling_Std_14"
    case SalesPerCustomer => "SalesPerCustomer"
    case Store => "Store"
    case Open => "Open"
    case StoreType => "StoreType"
    case Assortment => "Assortment"
    case CompetitionDistance => "CompetitionDistance"
  }

  /** Attribute lookup by name: the field a name denotes, if any. */
  function FieldNamed(name: string): (r: Option<Field>)
    ensures r.Some? ==> Name(r.value) == name
  {
    if name == "DayOfWeek" then Some(DayOfWeek)
    else if name == "Month" then Some(Month)
    else if name == "Quarter" then Some(Quarter)
    else if name == "IsWeekend" then Some(IsWeekend)
    else if name == "Promo" then Some(Promo)
    else if name == "SchoolHoliday" then Some(SchoolHoliday)
    else if name == "Sales_Lag_1" then Some(SalesLag1)
    else if name == "Sales_Lag_7" then Some(SalesLag7)
    else if name == "Sales_Lag_14" then Some(SalesLag14)
    else if name == "Sales_Lag_30" then Some(SalesLag30)
    else if name == "Customers_Lag_1" then Some(CustomersLag1)
    else if name == "Customers_Lag_7" then Some(CustomersLag7)
    else if name == "Sales_Rolling_Mean_7" then Some(SalesRollingMean7)
    else if name == "Sales_Rolling_Mean_14" then Some(SalesRollingMean14)
    else if name == "Sales_Rolling_Std_7" then Some(SalesRollingStd7)
    else if name == "Sales_Rolling_Std_14" then Some(SalesRollingStd14)
    else if name == "SalesPerCustomer" then Some(SalesPerCustomer)
    else if name == "Store" then Some(Store)
    else if name == "Open" then Some(Open)
    else if name == "StoreType" then Some(StoreType)
    else if name == "Assortment" then Some(Assortment)
    else if name == "CompetitionDistance" then Some(CompetitionDistance)
    else None
  }

  /** Every field is found again under its own name, so names are pairwise distinct. */
  lemma NameRoundTrip(f: Field)
    ensures FieldNamed(Name(f)) == Some(f)
  {
    if Position(f) < 6 {
      TemporalNamesRoundTrip(f);
    } else if Position(f) < 12 {
      LagNamesRoundTrip(f);
    } else if Position(f) < 17 {
      RollingNamesRoundTrip(f);
    } else {
      StoreNamesRoundTrip(f);
    }
  }

  lemma TemporalNamesRoundTrip(f: Field)
    requires Position(f) < 6
    ensures FieldNamed(Name(f)) == Some(f)
  {
    match f
    case DayOfWeek => {}
    case Month => {}
    case Quarter => {}
    case IsWeekend => {}
    case Promo => {}
    case SchoolHoliday => {}
  }

  lemma LagNamesRoundTrip(f: Field)
    requires 6 <= Position(f) < 12
    ensures FieldNamed(Name(f)) == Some(f)
  {
    match f
    case SalesLag1 => {}
    case SalesLag7 => {}
    case SalesLag14 => {}
    case SalesLag30 => {}
    case CustomersLag1 => {}
    case CustomersLag7 => {}
  }

  lemma RollingNamesRoundTrip(f: Field)
    requires 12 <= Position(f) < 17
    ensures FieldNamed(Name(f)) == Some(f)
  {
    match f
    case SalesRollingMean7 => {}
    case SalesRollingMean14 => {}
    case SalesRollingStd7 => {}
    case SalesRollingStd14 => {}
    case SalesPerCustomer => {}
  }

  lemma StoreNamesRoundTrip(f: Field)
    requires 17 <= Position(f)
    ensures FieldNamed(Name(f)) == Some(f)
  {
    match f
    case Store => {}
    case Open => {}
    case StoreType => {}
    case Assortment => CodeNamesRoundTrip(f);
    case CompetitionDistance => CodeNamesRoundTrip(f);
  }

  lemma CodeNamesRoundTrip(f: Field)
    requires 20 <= Position(f)
    ensures FieldNamed(Name(f)) == Some(f)
  {
    match f
    case Assortment => {}
    case CompetitionDistance => {}
  }

  /** The value of a field, integer fields widened to `real`. */
  function Value(p: PredictionInput, f: Field): real {
    match f
    case DayOfWeek => p.dayOfWeek as real
    case Month => p.month as real
    case Quarter => p.quarter as real
    case IsWeekend => p.isWeekend as real
    case Promo => p.promo
    case SchoolHoliday => p.schoolHoliday as real
    case SalesLag1 => p.salesLag1
    case SalesLag7 => p.salesLag7
    case SalesLag14 => p.salesLag14
    case SalesLag30 => p.salesLag30
    case CustomersLag1 => p.customersLag1
    case CustomersLag7 => p.customersLag7
    case SalesRollingMean7 => p.salesRollingMean7
    case SalesRollingMean14 => p.salesRollingMean14
    case SalesRollingStd7 => p.salesRollingStd7
    case SalesRollingStd14 => p.salesRollingStd14
    case SalesPerCustomer => p.salesPerCustomer
    case Store => p.store as real
    case Open => p.open as real
    case StoreType => p.storeType as real
    case Assortment => p.assortment as real
    case CompetitionDistance => p.competitionDistance
  }

  /** The declared type of each field, as the record's own field types give it. */
  function KindOf(f: Field): Kind {
    match f
    case DayOfWeek | Month | Quarter | IsWeekend | SchoolHoliday
      | Store | Open | StoreType | Assortment => IntField
    case _ => FloatField
  }

  /** The bounds each field is declared with. */
  function RuleOf(f: Field): Rule {
    match f
    case DayOfWeek => Rule(Some(1.0), None, Some(7.0))
    case Month => Rule(Some(1.0), None, Some(12.0))
    case Quarter => Rule(Some(1.0), None, Some(4.0))
    case IsWeekend => Rule(Some(0.0), None, Some(1.0))
    case Promo => Rule(Some(0.0), None, Some(1.0))
    case SchoolHoliday => Rule(Some(0.0), None, Some(1.0))
    case SalesLag1 | SalesLag7 | SalesLag14 | SalesLag30 => Rule(None, Some(0.0), None)
    case CustomersLag1 | CustomersLag7 => Rule(None, Some(0.0), None)
    case SalesRollingMean7 | SalesRollingMean14 => Rule(None, Some(0.0), None)
    case SalesRollingStd7 | SalesRollingStd14 => Rule(Some(0.0), None, None)
    case SalesPerCustomer => Rule(None, Some(0.0), None)
    case Store => Rule(Some(1.0), None, None)
    case Open => Rule(Some(0.0), None, Some(1.0))
    case StoreType | Assortment => Rule(Some(0.0), None, None)
    case CompetitionDistance => Rule(Some(0.0), None, None)
  }

  /** One field of a record meets its declared bounds. */
  predicate FieldOk(p: PredictionInput, f: Field) {
    var x := Value(p, f);
    var rule := RuleOf(f);
    && (rule.ge.Some? ==> x >= rule.ge.value)
    && (rule.gt.Some? ==> x > rule.gt.value)
    && (rule.le.Some? ==> x <= rule.le.value)
  }

  /** A record is accepted when every field meets its declared bounds. */
  predicate Valid(p: PredictionInput) {
    forall f: Field :: FieldOk(p, f)
  }

  /** The listed fields, in order, that violate their bounds. */
  function Failing(p: PredictionInput, fs: seq<Field>): (r: seq<Field>)
    ensures forall f :: f in r <==> f in fs && !FieldOk(p, f)
    ensures |r| <= |fs|
  {
    if fs == [] then []
    else (if FieldOk(p, fs[0]) then [] else [fs[0]]) + Failing(p, fs[1..])
  }

  /** Every violated field of a record, in declaration order (all of them, not the first one). */
  function Violations(p: PredictionInput): seq<Field> {
    Failing(p, DeclaredFields())
  }

  /** A field rejected in a request: the position of the record in a batch, if any, and the field. */
  datatype ValidationError = ValidationError(item: Option<nat>, field: Field)

  /** Errors for the given fields, all tagged with the same record position. */
  function Tagged(fs: seq<Field>, item: Option<nat>): (r: seq<ValidationError>)
    ensures |r| == |fs|
    ensures forall k :: 0 <= k < |fs| ==> r[k] == ValidationError(item, fs[k])
    ensures forall e :: e in r <==> e.item == item && e.field in fs
  {
    if fs == [] then [] else [ValidationError(item, fs[0])] + Tagged(fs[1..], item)
  }

  /** The validation errors of a single-record request. */
  function RequestErrors(p: PredictionInput): seq<ValidationError> {
    Tagged(Violations(p), None)
  }

  /** A batch request: a list of records. */
  datatype BatchPredictionRequest = BatchPredictionRequest(data: seq<PredictionInput>)

  /** A batch request is accepted only when every record in it is. */
  predicate ValidBatch(req: BatchPredictionRequest) {
    forall i :: 0 <= i < |req.data| ==> Valid(req.data[i])
  }

  function ErrorsFrom(data: seq<PredictionInput>, start: nat): seq<ValidationError>
    decreases |data|
  {
    if data == [] then []
    else
      Tagged(Violations(data[0]), Some(start)) + ErrorsFrom(data[1..], start + 1)
  }

  /** The validation errors of a batch request, each tagged with its record's position. */
  function BatchErrors(req: BatchPredictionRequest): seq<ValidationError> {
    ErrorsFrom(req.data, 0)
  }

  /** The prediction response. */
  datatype PredictionOutput = PredictionOutput(
    prediction: real, confidence: real, predictionTimestamp: string, modelVersion: string)

  predicate ValidOutput(o: PredictionOutput) {
    0.0 <= o.confidence <= 1.0
  }

  /** The example record the schema documents. */
  const Example: PredictionInput := PredictionInput(
    3, 11, 4, 0, 1.0, 0,
    5000.0, 4800.0, 4700.0, 4900.0,
    800.0, 820.0,
    4900.0, 4850.0, 100.0, 120.0,
    6.25,
    1, 1, 0, 0, 1000.0)

  // ---------------------------------------------------------------------------
  // Properties of the rules
  // ---------------------------------------------------------------------------

  /** Position and FieldAt are inverse to each other. */
  lemma FieldAtPosition(f: Field)
    ensures FieldAt(Position(f)) == f
  {
  }

  lemma PositionOfFieldAt(i: nat)
    requires i < 22
    ensures Position(FieldAt(i)) == i
  {
  }

  /** The declaration list holds each of the 22 fields exactly once. */
  lemma DeclaredFieldsComplete()
    ensures |DeclaredFields()| == 22
    ensures forall f: Field :: DeclaredFields()[Position(f)] == f && f in DeclaredFields()
    ensures forall i, j :: 0 <= i < j < |DeclaredFields()| ==> DeclaredFields()[i] != DeclaredFields()[j]
  {
    forall f: Field ensures DeclaredFields()[Position(f)] == f {
      FieldAtPosition(f);
    }
    forall i, j | 0 <= i < j < |DeclaredFields()| ensures DeclaredFields()[i] != DeclaredFields()[j] {
      PositionOfFieldAt(i);
      PositionOfFieldAt(j);
    }
  }

  /** The bounds of models.py written out on the typed record, field by field:
      the temporal and promotion fields, ... */
  predicate TemporalBounds(p: PredictionInput) {
    && 1 <= p.dayOfWeek <= 7 && 1 <= p.month <= 12 && 1 <= p.quarter <= 4
    && 0 <= p.isWeekend <= 1 && 0.0 <= p.promo <= 1.0 && 0 <= p.schoolHoliday <= 1
  }

  /** ... the lag, rolling and derived fields, ... */
  predicate HistoryBounds(p: PredictionInput) {
    && p.salesLag1 > 0.0 && p.salesLag7 > 0.0 && p.salesLag14 > 0.0 && p.salesLag30 > 0.0
    && p.customersLag1 > 0.0 && p.customersLag7 > 0.0
    && p.salesRollingMean7 > 0.0 && p.salesRollingMean14 > 0.0
    && p.salesRollingStd7 >= 0.0 && p.salesRollingStd14 >= 0.0
    && p.salesPerCustomer > 0.0
  }

  /** ... and the store fields. */
  predicate StoreBounds(p: PredictionInput) {
    && p.store >= 1 && 0 <= p.open <= 1 && p.storeType >= 0 && p.assortment >= 0
    && p.competitionDistance >= 0.0
  }

  predicate WithinDeclaredBounds(p: PredictionInput) {
    TemporalBounds(p) && HistoryBounds(p) && StoreBounds(p)
  }

  /** The per-field rule table accepts exactly the records within the written-out bounds. */
  lemma ValidSpelledOut(p: PredictionInput)
    ensures Valid(p) <==> WithinDeclaredBounds(p)
  {
    if Valid(p) {
      ValidImpliesTemporalBounds(p);
      ValidImpliesHistoryBounds(p);
      ValidImpliesStoreBounds(p);
    } else {
      var f :| !FieldOk(p, f);
      match f
      case DayOfWeek => {}
      case Month => {}
      case Quarter => {}
      case IsWeekend => {}
      case Promo => {}
      case SchoolHoliday => {}
      case SalesLag1 => {}
      case SalesLag7 => {}
      case SalesLag14 => {}
      case SalesLag30 => {}
      case CustomersLag1 => {}
      case CustomersLag7 => {}
      case SalesRollingMean7 => {}
      case SalesRollingMean14 => {}
      case SalesRollingStd7 => {}
      case SalesRollingStd14 => {}
      case SalesPerCustomer => {}
      case Store => {}
      case Open => {}
      case StoreType => {}
      case Assortment => {}
      case CompetitionDistance => {}
    }
  }

  lemma ValidImpliesTemporalBounds(p: PredictionInput)
    requires Valid(p)
    ensures TemporalBounds(p)
  {
    assert FieldOk(p, DayOfWeek);
    assert FieldOk(p, Month);
    assert FieldOk(p, Quarter);
    assert FieldOk(p, IsWeekend);
    assert FieldOk(p, Promo);
    assert FieldOk(p, SchoolHoliday);
  }

  lemma ValidImpliesHistoryBounds(p: PredictionInput)
    requires Valid(p)
    ensures HistoryBounds(p)
  {
    assert FieldOk(p, SalesLag1);
    assert FieldOk(p, SalesLag7);
    assert FieldOk(p, SalesLag14);
    assert FieldOk(p, SalesLag30);
    assert FieldOk(p, CustomersLag1);
    assert FieldOk(p, CustomersLag7);
    assert FieldOk(p, SalesRollingMean7);
    assert FieldOk(p, SalesRollingMean14);
    assert FieldOk(p, SalesRollingStd7);
    assert FieldOk(p, SalesRollingStd14);
    assert FieldOk(p, SalesPerCustomer);
  }

  lemma ValidImpliesStoreBounds(p: PredictionInput)
    requires Valid(p)
    ensures StoreBounds(p)
  {
    assert FieldOk(p, Store);
    assert FieldOk(p, Open);
    assert FieldOk(p, StoreType);
    assert FieldOk(p, Assortment);
    assert FieldOk(p, CompetitionDistance);
  }

  /** The temporal fields are accepted exactly within their calendar ranges. */
  lemma CalendarRanges(p: PredictionInput)
    ensures FieldOk(p, DayOfWeek) <==> 1 <= p.dayOfWeek <= 7
    ensures FieldOk(p, Month) <==> 1 <= p.month <= 12
    ensures FieldOk(p, Quarter) <==> 1 <= p.quarter <= 4
  {
  }

  /** The integer flags accept 0 and 1 and nothing else. */
  lemma FlagsAreBinary(p: PredictionInput)
    ensures FieldOk(p, IsWeekend) <==> p.isWeekend == 0 || p.isWeekend == 1
    ensures FieldOk(p, SchoolHoliday) <==> p.schoolHoliday == 0 || p.schoolHoliday == 1
    ensures FieldOk(p, Open) <==> p.open == 0 || p.open == 1
  {
  }

  /** The declared kinds agree with the record: an integer field always holds a whole number. */
  lemma IntFieldsHoldWholeNumbers(p: PredictionInput, f: Field)
    ensures KindOf(f) == IntField ==> Value(p, f) == Value(p, f).Floor as real
  {
    match f
    case DayOfWeek => {}
    case Month => {}
    case Quarter => {}
    case IsWeekend => {}
    case SchoolHoliday => {}
    case Store => {}
    case Open => {}
    case StoreType => {}
    case Assortment => {}
    case _ => {}
  }

  /** The converse: every field declared `float` can hold a fraction. */
  lemma FloatFieldsMayHoldFractions(f: Field)
    ensures KindOf(f) == FloatField ==> exists p :: Value(p, f) != Value(p, f).Floor as real
  {
    if KindOf(f) == FloatField {
      var halves := PredictionInput(0, 0, 0, 0, 0.5, 0, 0.5, 0.5, 0.5, 0.5, 0.5, 0.5,
        0.5, 0.5, 0.5, 0.5, 0.5, 0, 0, 0, 0, 0.5);
      assert Value(halves, f) == 0.5;
    }
  }

  /** Promo is a float in [0, 1], so a fractional promotion is accepted. */
  lemma PromoMayBeFractional()
    ensures KindOf(Promo) == FloatField && KindOf(IsWeekend) == IntField
    ensures Valid(Example.(promo := 0.5))
    ensures !Valid(Example.(promo := 1.5))
  {
    ExampleIsValid();
    assert !FieldOk(Example.(promo := 1.5), Promo);
  }

  /** Lags, rolling means and sales per customer must be strictly positive;
      rolling deviations and the competition distance may be zero. */
  lemma PositivityRules(p: PredictionInput)
    requires Valid(p)
    ensures p.salesLag1 > 0.0 && p.salesLag7 > 0.0 && p.salesLag14 > 0.0 && p.salesLag30 > 0.0
    ensures p.customersLag1 > 0.0 && p.customersLag7 > 0.0
    ensures p.salesRollingMean7 > 0.0 && p.salesRollingMean14 > 0.0 && p.salesPerCustomer > 0.0
    ensures Valid(p.(salesRollingStd7 := 0.0, salesRollingStd14 := 0.0, competitionDistance := 0.0))
    ensures !Valid(p.(salesLag1 := 0.0)) && !Valid(p.(salesPerCustomer := 0.0))
    ensures !Valid(p.(competitionDistance := -1.0))
    ensures p.salesRollingStd7 >= 0.0 && p.salesRollingStd14 >= 0.0 && p.competitionDistance >= 0.0
  {
    ValidSpelledOut(p);
    ValidSpelledOut(p.(salesRollingStd7 := 0.0, salesRollingStd14 := 0.0, competitionDistance := 0.0));
    ValidSpelledOut(p.(salesLag1 := 0.0));
    ValidSpelledOut(p.(salesPerCustomer := 0.0));
    ValidSpelledOut(p.(competitionDistance := -1.0));
  }

  /** No negative value is accepted for a rolling deviation or the competition distance. */
  lemma NegativeDistancesRejected(p: PredictionInput, x: real)
    requires x < 0.0
    ensures !Valid(p.(salesRollingStd7 := x))
    ensures !Valid(p.(salesRollingStd14 := x))
    ensures !Valid(p.(competitionDistance := x))
  {
    ValidSpelledOut(p.(salesRollingStd7 := x));
    ValidSpelledOut(p.(salesRollingStd14 := x));
    ValidSpelledOut(p.(competitionDistance := x));
  }

  /** Store, store type and assortment have lower bounds only. */
  lemma CodesUnbounded(p: PredictionInput, store: int, storeType: int, assortment: int)
    requires Valid(p) && store >= 1 && storeType >= 0 && assortment >= 0
    ensures Valid(p.(store := store, storeType := storeType, assortment := assortment))
    ensures !Valid(p.(store := 0)) && !Valid(p.(storeType := -1)) && !Valid(p.(assortment := -1))
  {
    ValidSpelledOut(p);
    ValidSpelledOut(p.(store := store, storeType := storeType, assortment := assortment));
    ValidSpelledOut(p.(store := 0));
    ValidSpelledOut(p.(storeType := -1));
    ValidSpelledOut(p.(assortment := -1));
  }

  /** The documented example record satisfies every rule. */
  lemma ExampleIsValid()
    ensures Valid(Example)
  {
    ValidSpelledOut(Example);
  }

  /** A record is accepted exactly when no field is reported. */
  lemma ValidIffNoViolations(p: PredictionInput)
    ensures Valid(p) <==> Violations(p) == []
    ensures forall f :: f in Violations(p) <==> !FieldOk(p, f)
  {
    DeclaredFieldsComplete();
    if Violations(p) != [] {
      assert Violations(p)[0] in Violations(p);
    }
  }

  lemma {:induction false} ErrorsFromExact(data: seq<PredictionInput>, start: nat, e: ValidationError)
    ensures e in ErrorsFrom(data, start) <==>
      e.item.Some? && start <= e.item.value < start + |data| && !FieldOk(data[e.item.value - start], e.field)
    decreases |data|
  {
    if data != [] {
      var head := Tagged(Violations(data[0]), Some(start));
      var tail := ErrorsFrom(data[1..], start + 1);
      assert ErrorsFrom(data, start) == head + tail;
      assert e in head <==> e.item == Some(start) && !FieldOk(data[0], e.field) by {
        ValidIffNoViolations(data[0]);
      }
      assert e in tail <==>
        e.item.Some? && start < e.item.value < start + |data| && !FieldOk(data[e.item.value - start], e.field)
      by {
        ErrorsFromExact(data[1..], start + 1, e);
        if e.item.Some? && start < e.item.value < start + |data| {
          assert data[1..][e.item.value - (start + 1)] == data[e.item.value - start];
        }
      }
    }
  }

  /** A batch is rejected field by field: an error names record i and field f
      exactly when that field of that record is out of bounds. */
  lemma BatchErrorsExact(req: BatchPredictionRequest, i: nat, f: Field)
    ensures ValidationError(Some(i), f) in BatchErrors(req) <==> i < |req.data| && !FieldOk(req.data[i], f)
  {
    ErrorsFromExact(req.data, 0, ValidationError(Some(i), f));
  }

  /** One out-of-range record rejects the whole batch request. */
  lemma OneBadRecordRejectsBatch(req: BatchPredictionRequest, i: nat)
    requires i < |req.data| && !Valid(req.data[i])
    ensures !ValidBatch(req)
    ensures BatchErrors(req) != []
  {
    var f :| !FieldOk(req.data[i], f);
    BatchErrorsExact(req, i, f);
  }

  /** A batch request is accepted exactly when it reports no error. */
  lemma ValidBatchIffNoErrors(req: BatchPredictionRequest)
    ensures ValidBatch(req) <==> BatchErrors(req) == []
  {
    if BatchErrors(req) != [] {
      var e := BatchErrors(req)[0];
      ErrorsFromExact(req.data, 0, e);
    }
    if !ValidBatch(req) {
      var i :| 0 <= i < |req.data| && !Valid(req.data[i]);
      OneBadRecordRejectsBatch(req, i);
    }
  }
}
