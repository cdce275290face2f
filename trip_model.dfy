/** The trip document (server/models/Trip.js): required fields, the
    end-not-before-start validator, the non-negative budget, the travel-type
    enumeration and the defaults Mongoose fills in. */
module TripModel {
  import opened Wrappers
  import opened Text

  type UserId = nat

  datatype TravelType = Solo | Family | Friends | Couple | Business | Other

  /** The string stored for each travel type. */
  function TravelTypeName(t: TravelType): string {
    match t
    case Solo => "solo"
    case Family => "family"
    case Friends => "friends"
    case Couple => "couple"
    case Business => "business"
    case Other => "other"
  }

  /** The enum validator: only the six names, spelt exactly, are accepted. */
  function ParseTravelType(s: string): (r: Option<TravelType>)
    ensures r.Some? ==> TravelTypeName(r.value) == s
    ensures r.None? <==> forall t :: TravelTypeName(t) != s
  {
    if s == "solo" then Some(Solo)
    else if s == "family" then Some(Family)
    else if s == "friends" then Some(Friends)
    else if s == "couple" then Some(Couple)
    else if s == "business" then Some(Business)
    else if s == "other" then Some(Other)
    else None
  }

  /** A budget as a request body carries it: absent, explicitly null, or a number. */
  datatype Budget = Undefined | Null | Amount(value: int)

  /** The values handed to `Trip.create`; `None` marks a field left undefined. */
  datatype TripDraft = TripDraft(
    userId: UserId,
    destination: string,
    startDate: int,
    endDate: int,
    budget: Budget,
    currency: Option<string>,
    interests: Option<seq<string>>,
    travelType: Option<string>)

  /** A stored trip. Dates are day numbers; `createdAt` is the creation stamp
      the store assigns (`timestamps: true`). */
  datatype Trip = Trip(
    userId: UserId,
    destination: string,
    startDate: int,
    endDate: int,
    budget: int,
    currency: string,
    interests: seq<string>,
    travelType: TravelType,
    createdAt: nat)

  /** The schema rules a draft can break. Mongoose reports all of them at once. */
  datatype Violation =
    | DestinationRequired
    | EndBeforeStart
    | BudgetRequired
    | BudgetNegative
    | TravelTypeNotAllowed

  const DefaultCurrency: string := "INR"
  const DefaultTravelType: string := "solo"

  /** What every stored trip satisfies. */
  predicate ValidTrip(t: Trip) {
    && t.destination != []
    && Trimmed(t.destination)
    && t.endDate >= t.startDate
    && t.budget >= 0
    && Trimmed(t.currency)
    && (forall k :: 0 <= k < |t.currency| ==> !('a' <= t.currency[k] <= 'z'))
  }

  /** The set of the rules whose breach flags are set. */
  function Collect(blank: bool, endsEarly: bool, noBudget: bool, negative: bool, badType: bool): (v: set<Violation>)
    ensures DestinationRequired in v <==> blank
    ensures EndBeforeStart in v <==> endsEarly
    ensures BudgetRequired in v <==> noBudget
    ensures BudgetNegative in v <==> negative
    ensures TravelTypeNotAllowed in v <==> badType
    ensures v == {} <==> !blank && !endsEarly && !noBudget && !negative && !badType
  {
    var v := (if blank then {DestinationRequired} else {})
      + (if endsEarly then {EndBeforeStart} else {})
      + (if noBudget then {BudgetRequired} else {})
      + (if negative then {BudgetNegative} else {})
      + (if badType then {TravelTypeNotAllowed} else {});
    assert blank ==> DestinationRequired in v;
    v
  }

  function Violations(d: TripDraft): (v: set<Violation>)
    ensures DestinationRequired in v <==> Trim(d.destination) == []
    ensures EndBeforeStart in v <==> d.endDate < d.startDate
    ensures BudgetRequired in v <==> !d.budget.Amount?
    ensures BudgetNegative in v <==> d.budget.Amount? && d.budget.value < 0
    ensures TravelTypeNotAllowed in v <==> d.travelType.Some? && ParseTravelType(d.travelType.value).None?
    ensures v == {} <==>
              && Trim(d.destination) != []
              && d.endDate >= d.startDate
              && d.budget.Amount? && d.budget.value >= 0
              && (d.travelType.Some? ==> ParseTravelType(d.travelType.value).Some?)
  {
    Collect(Trim(d.destination) == [],
            d.endDate < d.startDate,
            !d.budget.Amount?,
            d.budget.Amount? && d.budget.value < 0,
            d.travelType.Some? && ParseTravelType(d.travelType.value).None?)
  }

  /** Upper-casing never turns a character into white space or back. */
  lemma UpperCaseKeepsSpaces(c: char)
    ensures IsSpace(UpperChar(c)) <==> IsSpace(c)
  {
    if 'a' <= c <= 'z' {
      assert !IsSpace(c) && 'A' <= UpperChar(c) <= 'Z';
    }
  }

  /** Upper-casing a trimmed string leaves it trimmed. */
  lemma UpperCaseKeepsTrimmed(t: string)
    requires Trimmed(t)
    ensures Trimmed(ToUpper(t))
  {
    var u := ToUpper(t);
    if t != [] {
      assert !IsSpace(t[0]) && !IsSpace(t[|t| - 1]);
      UpperCaseKeepsSpaces(t[0]);
      UpperCaseKeepsSpaces(t[|t| - 1]);
      assert u[0] == UpperChar(t[0]) && u[|u| - 1] == UpperChar(t[|t| - 1]);
    }
  }

  /** The `trim` and `uppercase` setters of the currency path. */
  function NormalizeCurrency(c: string): (r: string)
    ensures r == ToUpper(Trim(c))
    ensures Trimmed(r)
    ensures forall k :: 0 <= k < |r| ==> !('a' <= r[k] <= 'z')
  {
    UpperCaseKeepsTrimmed(Trim(c));
    ToUpper(Trim(c))
  }

  /** `Trip.create`: apply the `trim`/`uppercase` setters and the defaults, then
      validate. The draft is stored exactly when every rule holds. */
  function CastTrip(d: TripDraft, createdAt: nat): (r: Result<Trip, set<Violation>>)
    ensures r.Success? <==>
              && Trim(d.destination) != []
              && d.endDate >= d.startDate
              && d.budget.Amount? && d.budget.value >= 0
              && (d.travelType.Some? ==> ParseTravelType(d.travelType.value).Some?)
    ensures r.Failure? ==> r.error == Violations(d) && r.error != {}
    ensures r.Success? ==>
              && ValidTrip(r.value)
              && r.value.userId == d.userId
              && r.value.destination == Trim(d.destination)
              && r.value.startDate == d.startDate && r.value.endDate == d.endDate
              && r.value.budget == d.budget.value
              && r.value.currency == NormalizeCurrency(d.currency.GetOr(DefaultCurrency))
              && r.value.interests == d.interests.GetOr([])
              && (d.travelType.None? ==> r.value.travelType == Solo)
              && (d.travelType.Some? ==> TravelTypeName(r.value.travelType) == d.travelType.value)
              && r.value.createdAt == createdAt
  {
    var v := Violations(d);
    if v != {} then Failure(v)
    else
      var currency := NormalizeCurrency(d.currency.GetOr(DefaultCurrency));
      var travelType := ParseTravelType(d.travelType.GetOr(DefaultTravelType)).value;
      Success(Trip(d.userId, Trim(d.destination), d.startDate, d.endDate, d.budget.value,
                   currency, d.interests.GetOr([]), travelType, createdAt))
  }
}
