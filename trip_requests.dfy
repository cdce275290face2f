/** The request checks of `createTrip` (server/controllers/tripController.js):
    which bodies are turned away with status 400 before anything is stored, and
    the draft, defaults filled in, that reaches `Trip.create`. */
module TripRequests {
  import opened Wrappers
  import opened Text
  import opened TripModel

  /** The fields of a request body that `createTrip` reads; `None` is a field
      that is absent or null. The dates are the strings the client sends. */
  datatype TripRequest = TripRequest(
    destination: Option<string>,
    startDate: Option<string>,
    endDate: Option<string>,
    budget: Budget,
    currency: Option<string>,
    interests: Option<seq<string>>,
    travelType: Option<string>)

  /** `new Date(s)` followed by the `isNaN(getTime())` test: the day number the
      string denotes, `None` when it is not a date. */
  type DateParser = string -> Option<int>

  /** The three checks of the controller that answer 400. */
  datatype RequestError = FieldsMissing | DateUnparsable | EndPrecedesStart

  /** The length of each message, which tells the messages apart. */
  function MessageLength(e: RequestError): nat {
    match e
    case FieldsMissing => 58
    case DateUnparsable => 19
    case EndPrecedesStart => 45
  }

  /** The message each 400 hands to `next`. */
  function Message(e: RequestError): (m: string)
    ensures |m| == MessageLength(e)
  {
    match e
    case FieldsMissing => "Please provide destination, startDate, endDate, and budget"
    case DateUnparsable => "Invalid date format"
    case EndPrecedesStart => "End date must be after or equal to start date"
  }

  /** Each of the three checks answers with a message of its own. */
  lemma MessagesDistinct(a: RequestError, b: RequestError)
    ensures Message(a) == Message(b) <==> a == b
  {
    if a != b {
      assert MessageLength(a) != MessageLength(b);
    }
  }

  /** A 400 from the controller, or the schema's refusal of the draft inside
      `Trip.create`. */
  datatype Rejection = BadRequest(reason: RequestError) | SchemaRejected(violations: set<Violation>)

  /** JavaScript truthiness of an optional string: present and not empty. */
  predicate Truthy(s: Option<string>) {
    s.Some? && s.value != []
  }

  /** `s || fallback` on a string field. */
  function OrElse(s: Option<string>, fallback: string): string {
    if Truthy(s) then s.value else fallback
  }

  /** The first guard: destination, startDate and endDate truthy, budget not
      `undefined` (so a budget of 0, or null, gets through). */
  predicate Complete(req: TripRequest) {
    Truthy(req.destination) && Truthy(req.startDate) && Truthy(req.endDate) && !req.budget.Undefined?
  }

  predicate DatesParse(req: TripRequest, parseDate: DateParser)
    requires Complete(req)
  {
    parseDate(req.startDate.value).Some? && parseDate(req.endDate.value).Some?
  }

  /** The object literal handed to `Trip.create`, with the controller's
      `currency || 'INR'`, `interests || []` and `travelType || 'solo'`. */
  function Draft(req: TripRequest, user: UserId, start: int, end: int): TripDraft
    requires Complete(req)
  {
    TripDraft(user, req.destination.value, start, end, req.budget,
              Some(OrElse(req.currency, DefaultCurrency)),
              Some(req.interests.GetOr([])),
              Some(OrElse(req.travelType, DefaultTravelType)))
  }

  /** `createTrip` up to and including `Trip.create`: the three 400 checks in
      source order, then the schema. */
  function CreateTrip(req: TripRequest, user: UserId, parseDate: DateParser, createdAt: nat): (r: Result<Trip, Rejection>)
    ensures r == Failure(BadRequest(FieldsMissing)) <==> !Complete(req)
    ensures r == Failure(BadRequest(DateUnparsable)) <==> Complete(req) && !DatesParse(req, parseDate)
    ensures r == Failure(BadRequest(EndPrecedesStart)) <==>
              && Complete(req) && DatesParse(req, parseDate)
              && parseDate(req.endDate.value).value < parseDate(req.startDate.value).value
    ensures r.Success? <==>
              && Complete(req) && DatesParse(req, parseDate)
              && parseDate(req.endDate.value).value >= parseDate(req.startDate.value).value
              && Trim(req.destination.value) != []
              && req.budget.Amount? && req.budget.value >= 0
              && (Truthy(req.travelType) ==> ParseTravelType(req.travelType.value).Some?)
    ensures r.Failure? && r.error.SchemaRejected? ==>
              && Complete(req)
              && r.error.violations != {}
              && EndBeforeStart !in r.error.violations
              && (DestinationRequired in r.error.violations <==> Trim(req.destination.value) == [])
              && (BudgetRequired in r.error.violations <==> req.budget.Null?)
              && (BudgetNegative in r.error.violations <==> req.budget.Amount? && req.budget.value < 0)
              && (TravelTypeNotAllowed in r.error.violations <==>
                    Truthy(req.travelType) && ParseTravelType(req.travelType.value).None?)
    ensures r.Success? ==>
              && ValidTrip(r.value)
              && r.value.userId == user
              && r.value.destination == Trim(req.destination.value)
              && r.value.startDate == parseDate(req.startDate.value).value
              && r.value.endDate == parseDate(req.endDate.value).value
              && r.value.budget == req.budget.value
              && r.value.currency == NormalizeCurrency(OrElse(req.currency, DefaultCurrency))
              && r.value.interests == req.interests.GetOr([])
              && (!Truthy(req.travelType) ==> r.value.travelType == Solo)
              && (Truthy(req.travelType) ==> TravelTypeName(r.value.travelType) == req.travelType.value)
              && r.value.createdAt == createdAt
  {
    if !Complete(req) then Failure(BadRequest(FieldsMissing))
    else if !DatesParse(req, parseDate) then Failure(BadRequest(DateUnparsable))
    else
      var start := parseDate(req.startDate.value).value;
      var end := parseDate(req.endDate.value).value;
      if end < start then Failure(BadRequest(EndPrecedesStart))
      else
        match CastTrip(Draft(req, user, start, end), createdAt)
        case Success(trip) => Success(trip)
        case Failure(violations) => Failure(SchemaRejected(violations))
  }
}
