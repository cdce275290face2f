/** The itinerary document (server/models/Itinerary.js): the activity, day and
    itinerary field constraints, and the `pre('save')` hook that recomputes every
    day's cost and the total from the activity costs. */
module ItineraryModel {
  import opened Wrappers
  import opened Text
  import TripModel

  type TripId = nat
  type ItineraryId = nat
  type UserId = TripModel.UserId

  /** The `timeSlot` enumeration. */
  const SlotNames: seq<string> := ["Morning", "Afternoon", "Evening", "Night"]

  /** One activity. A `None` cost is a cost the document holds as null, which
      the hook counts as 0; the synthetic latitude, longitude and map link of
      the location are not part of the model, its address is. */
  datatype Activity = Activity(
    timeSlot: string,
    placeName: string,
    placeType: string,
    description: string,
    estimatedCost: Option<int>,
    address: Option<string>)

  /** One day; `date` is a day number, `None` when the payload lacks it. */
  datatype Day = Day(
    dayNumber: int,
    date: Option<int>,
    summary: string,
    activities: seq<Activity>,
    notes: string,
    estimatedDayCost: int)

  datatype Itinerary = Itinerary(
    tripId: TripId,
    userId: UserId,
    days: seq<Day>,
    totalEstimatedCost: int)

  // ----- casting: the `trim: true` setters -----

  function TrimOpt(s: Option<string>): Option<string> {
    match s
    case Some(v) => Some(Trim(v))
    case None => None
  }

  function CastActivity(a: Activity): Activity {
    a.(placeName := Trim(a.placeName), placeType := Trim(a.placeType),
       description := Trim(a.description), address := TrimOpt(a.address))
  }

  function CastDay(d: Day): (r: Day)
    ensures |r.activities| == |d.activities|
    ensures forall m :: 0 <= m < |r.activities| ==> r.activities[m] == CastActivity(d.activities[m])
  {
    d.(summary := Trim(d.summary), notes := Trim(d.notes),
       activities := seq(|d.activities|, k requires 0 <= k < |d.activities| => CastActivity(d.activities[k])))
  }

  function CastDays(days: seq<Day>): seq<Day> {
    seq(|days|, k requires 0 <= k < |days| => CastDay(days[k]))
  }

  // ----- validation: the schema constraints, checked on the cast values -----

  /** `timeSlot` required and in the enumeration, `placeName` required,
      `estimatedCost` not below 0. */
  predicate ValidActivity(a: Activity) {
    a.timeSlot in SlotNames && a.placeName != [] && (a.estimatedCost.Some? ==> a.estimatedCost.value >= 0)
  }

  /** `dayNumber` required and at least 1, `date` required, the supplied
      `estimatedDayCost` not below 0. Neither the number of activities nor
      consecutive numbering is constrained. */
  predicate ValidDay(d: Day) {
    && d.dayNumber >= 1
    && d.date.Some?
    && d.estimatedDayCost >= 0
    && forall k :: 0 <= k < |d.activities| ==> ValidActivity(d.activities[k])
  }

  predicate ValidDays(days: seq<Day>) {
    forall k :: 0 <= k < |days| ==> ValidDay(days[k])
  }

  /** Mongoose validates the document as supplied, before the save hook runs. */
  predicate ValidDocument(doc: Itinerary) {
    doc.totalEstimatedCost >= 0 && ValidDays(doc.days)
  }

  // ----- the cost aggregation the save hook performs -----

  /** `activity.estimatedCost || 0`. */
  function ActivityCost(a: Activity): (c: int)
    ensures ValidActivity(a) ==> c >= 0
  {
    match a.estimatedCost
    case Some(c) => c
    case None => 0
  }

  /** The running `dayCost` after adding the given activities in order. */
  function ActivitiesCost(activities: seq<Activity>): int {
    if activities == [] then 0
    else ActivitiesCost(activities[..|activities| - 1]) + ActivityCost(activities[|activities| - 1])
  }

  /** The running `totalCost` after the given days. */
  function TotalCost(days: seq<Day>): int {
    if days == [] then 0
    else TotalCost(days[..|days| - 1]) + ActivitiesCost(days[|days| - 1].activities)
  }

  /** The sum of the `estimatedDayCost` fields as they stand. */
  function DayCostsSum(days: seq<Day>): int {
    if days == [] then 0
    else DayCostsSum(days[..|days| - 1]) + days[|days| - 1].estimatedDayCost
  }

  /** Every activity of the itinerary, day after day. */
  function AllActivities(days: seq<Day>): seq<Activity> {
    if days == [] then []
    else AllActivities(days[..|days| - 1]) + days[|days| - 1].activities
  }

  /** The days after the hook: each `estimatedDayCost` overwritten with the sum
      of its activities, nothing else touched. */
  function WithDayCosts(days: seq<Day>): (r: seq<Day>)
    ensures |r| == |days|
    ensures forall k :: 0 <= k < |r| ==>
              && r[k].estimatedDayCost == ActivitiesCost(days[k].activities)
              && r[k].activities == days[k].activities
              && r[k].dayNumber == days[k].dayNumber
              && r[k].date == days[k].date
              && r[k].summary == days[k].summary
              && r[k].notes == days[k].notes
  {
    seq(|days|, k requires 0 <= k < |days| => days[k].(estimatedDayCost := ActivitiesCost(days[k].activities)))
  }

  /** The document the hook leaves behind. */
  function Saved(doc: Itinerary): (r: Itinerary)
    ensures r.tripId == doc.tripId && r.userId == doc.userId
    ensures r.days == WithDayCosts(doc.days)
    ensures r.totalEstimatedCost == TotalCost(doc.days)
  {
    doc.(days := WithDayCosts(doc.days), totalEstimatedCost := TotalCost(doc.days))
  }

  /** The aggregation invariant every saved itinerary satisfies: each day's cost
      is the sum of its activities and the total is the sum of the day costs. */
  predicate CostsConsistent(doc: Itinerary) {
    && (forall k :: 0 <= k < |doc.days| ==>
          doc.days[k].estimatedDayCost == ActivitiesCost(doc.days[k].activities))
    && doc.totalEstimatedCost == DayCostsSum(doc.days)
  }

  // ----- lemmas -----

  lemma {:induction false} ActivitiesCostAppend(a: seq<Activity>, b: seq<Activity>)
    ensures ActivitiesCost(a + b) == ActivitiesCost(a) + ActivitiesCost(b)
    decreases |b|
  {
    if b != [] {
      var last := b[|b| - 1];
      assert (a + b)[..|a + b| - 1] == a + b[..|b| - 1];
      ActivitiesCostAppend(a, b[..|b| - 1]);
    } else {
      assert a + b == a;
    }
  }

  /** The total the hook computes is the sum of every activity cost of the
      itinerary, whatever the days held before. */
  lemma {:induction false} TotalIsSumOfAllActivities(days: seq<Day>)
    ensures TotalCost(days) == ActivitiesCost(AllActivities(days))
  {
    if days != [] {
      var init := days[..|days| - 1];
      TotalIsSumOfAllActivities(init);
      ActivitiesCostAppend(AllActivities(init), days[|days| - 1].activities);
    }
  }

  /** After the hook the total equals the sum of the (recomputed) day costs. */
  lemma {:induction false} TotalIsSumOfDayCosts(days: seq<Day>)
    ensures DayCostsSum(WithDayCosts(days)) == TotalCost(days)
  {
    if days != [] {
      var init := days[..|days| - 1];
      assert WithDayCosts(days)[..|days| - 1] == WithDayCosts(init);
      TotalIsSumOfDayCosts(init);
    }
  }

  /** The hook reads only the activities: supplied day costs and any other day
      field cannot change the costs it writes. */
  lemma {:induction false} SuppliedCostsIgnored(d1: seq<Day>, d2: seq<Day>)
    requires |d1| == |d2|
    requires forall k :: 0 <= k < |d1| ==> d1[k].activities == d2[k].activities
    ensures TotalCost(d1) == TotalCost(d2)
    ensures forall k :: 0 <= k < |d1| ==>
              WithDayCosts(d1)[k].estimatedDayCost == WithDayCosts(d2)[k].estimatedDayCost
  {
    if d1 != [] {
      SuppliedCostsIgnored(d1[..|d1| - 1], d2[..|d2| - 1]);
    }
  }

  /** A saved itinerary satisfies the aggregation invariant, and saving it again
      changes nothing. */
  lemma SavedIsConsistent(doc: Itinerary)
    ensures CostsConsistent(Saved(doc))
    ensures Saved(Saved(doc)) == Saved(doc)
  {
    TotalIsSumOfDayCosts(doc.days);
    var w := WithDayCosts(doc.days);
    SuppliedCostsIgnored(w, doc.days);
    assert WithDayCosts(w) == w;
  }

  lemma {:induction false} ActivitiesCostNonNegative(activities: seq<Activity>)
    requires forall k :: 0 <= k < |activities| ==> ValidActivity(activities[k])
    ensures ActivitiesCost(activities) >= 0
  {
    if activities != [] {
      ActivitiesCostNonNegative(activities[..|activities| - 1]);
    }
  }

  /** With the schema's non-negative activity costs, the recomputed day costs and
      total are non-negative too, so a valid document stays valid when saved. */
  lemma {:induction false} SavedStaysValid(doc: Itinerary)
    requires ValidDocument(doc)
    ensures ValidDocument(Saved(doc))
    ensures Saved(doc).totalEstimatedCost >= 0
  {
    forall k | 0 <= k < |doc.days| ensures ActivitiesCost(doc.days[k].activities) >= 0 {
      ActivitiesCostNonNegative(doc.days[k].activities);
    }
    TotalNonNegative(doc.days);
  }

  lemma {:induction false} TotalNonNegative(days: seq<Day>)
    requires forall k :: 0 <= k < |days| ==> ActivitiesCost(days[k].activities) >= 0
    ensures TotalCost(days) >= 0
  {
    if days != [] {
      TotalNonNegative(days[..|days| - 1]);
    }
  }

  // ----- the hook itself -----

  /** The inner `forEach` of the hook: add up one day's activity costs. */
  method DayCost(activities: seq<Activity>) returns (dayCost: int)
    ensures dayCost == ActivitiesCost(activities)
  {
    dayCost := 0;
    for k := 0 to |activities|
      invariant dayCost == ActivitiesCost(activities[..k])
    {
      assert activities[..k + 1][..k] == activities[..k];
      dayCost := dayCost + ActivityCost(activities[k]);
    }
    assert activities[..|activities|] == activities;
  }

  /** The `pre('save')` hook: overwrite each day's `estimatedDayCost` in place
      and return the total it assigns to `totalEstimatedCost`. */
  method SaveHook(days: array<Day>) returns (totalCost: int)
    modifies days
    ensures days[..] == WithDayCosts(old(days[..]))
    ensures totalCost == TotalCost(old(days[..]))
  {
    ghost var before := days[..];
    totalCost := 0;
    for i := 0 to days.Length
      invariant forall k :: 0 <= k < i ==>
                  days[k] == before[k].(estimatedDayCost := ActivitiesCost(before[k].activities))
      invariant forall k :: i <= k < days.Length ==> days[k] == before[k]
      invariant totalCost == TotalCost(before[..i])
    {
      assert before[..i + 1][..i] == before[..i];
      var dayCost := DayCost(days[i].activities);
      days[i] := days[i].(estimatedDayCost := dayCost);
      totalCost := totalCost + dayCost;
    }
    assert before[..days.Length] == before;
  }

  // ----- `save()`: cast, validate, then run the hook -----

  /** The document as Mongoose holds it after the `trim: true` setters. */
  /** What the `trim` setters make of an activity: `a` is `b` with its place
      name, place type, description and address trimmed, and its slot and cost kept. */
  predicate ActivityCastFrom(a: Activity, b: Activity) {
    && a.timeSlot == b.timeSlot
    && a.estimatedCost == b.estimatedCost
    && a.placeName == Trim(b.placeName)
    && a.placeType == Trim(b.placeType)
    && a.description == Trim(b.description)
    && a.address == TrimOpt(b.address)
  }

  /** What the `trim` setters make of a day: summary and notes trimmed, every
      activity cast, number, date and supplied day cost kept. */
  predicate DayCastFrom(d: Day, e: Day) {
    && d.dayNumber == e.dayNumber
    && d.date == e.date
    && d.estimatedDayCost == e.estimatedDayCost
    && d.summary == Trim(e.summary)
    && d.notes == Trim(e.notes)
    && |d.activities| == |e.activities|
    && forall m :: 0 <= m < |d.activities| ==> ActivityCastFrom(d.activities[m], e.activities[m])
  }

  function CastDocument(doc: Itinerary): (r: Itinerary)
    ensures r.tripId == doc.tripId && r.userId == doc.userId && r.totalEstimatedCost == doc.totalEstimatedCost
    ensures |r.days| == |doc.days|
    ensures forall k :: 0 <= k < |r.days| ==>
              && r.days[k].dayNumber == doc.days[k].dayNumber
              && r.days[k].date == doc.days[k].date
              && |r.days[k].activities| == |doc.days[k].activities|
              && Trimmed(r.days[k].summary) && Trimmed(r.days[k].notes)
  {
    doc.(days := CastDays(doc.days))
  }

  /** Field by field, the cast trims every string field the schema marks
      `trim` and leaves every other field as supplied. */
  lemma CastDocumentFields(doc: Itinerary)
    ensures |CastDocument(doc).days| == |doc.days|
    ensures forall k :: 0 <= k < |doc.days| ==> DayCastFrom(CastDocument(doc).days[k], doc.days[k])
  {
  }

  lemma CastActivityIdempotent(a: Activity)
    ensures CastActivity(CastActivity(a)) == CastActivity(a)
  {
  }

  lemma CastActivitiesIdempotent(d: Day)
    ensures CastDay(CastDay(d)).activities == CastDay(d).activities
  {
    var c := CastDay(d);
    forall m | 0 <= m < |c.activities|
      ensures CastDay(c).activities[m] == c.activities[m]
    {
      CastActivityIdempotent(d.activities[m]);
    }
  }

  lemma CastDayIdempotent(d: Day)
    ensures CastDay(CastDay(d)) == CastDay(d)
  {
    CastActivitiesIdempotent(d);
    TrimIdempotent(d.summary);
    TrimIdempotent(d.notes);
  }



  /** The `trim` setters are idempotent: casting a stored document again
      changes nothing. */
  lemma {:induction false} CastDocumentIdempotent(doc: Itinerary)
    ensures CastDocument(CastDocument(doc)) == CastDocument(doc)
  {
    var c := CastDocument(doc);
    forall k | 0 <= k < |c.days|
      ensures CastDay(c.days[k]) == c.days[k]
    {
      CastDayIdempotent(doc.days[k]);
    }
  }

  /** What `save()` (and `create`, which saves) stores: nothing when validation
      rejects the cast document, otherwise the document the hook leaves. */
  function SaveDocument(doc: Itinerary): (r: Option<Itinerary>)
    ensures r.Some? <==> ValidDocument(CastDocument(doc))
    ensures r.Some? ==> r.value == Saved(CastDocument(doc))
    ensures r.Some? ==> ValidDocument(r.value) && CostsConsistent(r.value)
    ensures r.Some? ==> r.value.tripId == doc.tripId && r.value.userId == doc.userId
  {
    var cast := CastDocument(doc);
    if ValidDocument(cast) then
      SavedIsConsistent(cast);
      SavedStaysValid(cast);
      Some(Saved(cast))
    else None
  }

  /** `save()`: validate the cast document, then let the hook rewrite its days
      in place and set the total. */
  method Save(doc: Itinerary) returns (r: Option<Itinerary>)
    ensures r == SaveDocument(doc)
  {
    var cast := CastDocument(doc);
    if !ValidDocument(cast) {
      return None;
    }
    var days := new Day[|cast.days|](k requires 0 <= k < |cast.days| => cast.days[k]);
    assert days[..] == cast.days;
    var total := SaveHook(days);
    r := Some(cast.(days := days[..], totalEstimatedCost := total));
  }
}
