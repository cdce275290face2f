/** The synthetic itinerary generator (`generateMockItinerary` in
    server/services/aiItineraryService.js): one day record per calendar day of
    the trip, three fixed slots per day, places chosen by cycling through the
    interests, a first-match keyword classification of each place, and costs
    drawn around a quarter of the per-day budget. */
module MockGenerator {
  import opened Wrappers
  import opened Text
  import opened TripModel
  import opened ItineraryModel

  /** A value returned by `Math.random()`. */
  type Unit = r: real | 0.0 <= r < 1.0

  /** The successive results of `Math.random()`: call number `k` (from 0) returns `rand(k)`. */
  type RandomSource = nat -> Unit

  /** `Math.floor(Math.random() * n)`. */
  function Pick(u: Unit, n: nat): (k: nat)
    requires n > 0
    ensures k < n
  {
    assert u * n as real < n as real by {
      assert (1.0 - u) * n as real > 0.0;
    }
    (u * n as real).Floor
  }

  const TimeSlots: seq<string> := ["Morning", "Afternoon", "Evening"]

  /** `defaultPlaces`: the catalog of an unknown interest, and the places cycled
      through when there are no interests. */
  function DefaultPlaces(): (places: seq<string>)
    ensures |places| == 8
  {
    ["City Center", "Main Square", "Popular Landmark", "Scenic Spot",
     "Local Attraction", "Famous Monument", "Waterfront", "Historic District"]
  }

  /** `placesByInterest[tag]`: the place catalog of a known interest tag. */
  function InterestPlaces(tag: string): (r: Option<seq<string>>)
    ensures r.Some? ==> |r.value| == 4
  {
    if tag == "museums" then Some(["National Museum", "Art Gallery", "History Museum", "Cultural Center"])
    else if tag == "food" then Some(["Local Market", "Famous Restaurant", "Street Food Tour", "Cooking Class"])
    else if tag == "architecture" then Some(["Historic Cathedral", "Old Town Square", "Palace Tour", "Heritage Building"])
    else if tag == "nature" then Some(["Botanical Garden", "City Park", "Nature Reserve", "Scenic Viewpoint"])
    else if tag == "shopping" then Some(["Shopping District", "Local Bazaar", "Artisan Market", "Mall"])
    else if tag == "adventure" then Some(["Adventure Park", "Hiking Trail", "Water Sports", "Zip Lining"])
    else if tag == "culture" then Some(["Cultural Show", "Traditional Performance", "Local Festival", "Heritage Walk"])
    else if tag == "nightlife" then Some(["Rooftop Bar", "Night Market", "Live Music Venue", "Sunset Cruise"])
    else None
  }

  /** `placesByInterest[interest.toLowerCase()] || defaultPlaces`. */
  function PlacesFor(interest: string): (places: seq<string>)
    ensures |places| > 0
    ensures InterestPlaces(ToLower(interest)).None? ==> places == DefaultPlaces()
    ensures InterestPlaces(ToLower(interest)).Some? ==> places == InterestPlaces(ToLower(interest)).value
  {
    InterestPlaces(ToLower(interest)).GetOr(DefaultPlaces())
  }

  // ----- classification -----

  /** `name.includes(k1) || name.includes(k2) || ...`. */
  predicate HasKeyword(name: string, keywords: seq<string>)
    decreases |keywords|
  {
    keywords != [] && (Contains(name, keywords[0]) || HasKeyword(name, keywords[1..]))
  }

  /** The keywords of the `if`s of `getPlaceType`, in source order. */
  function Keywords(j: nat): seq<string>
    requires j < 5
  {
    match j
    case 0 => ["Museum", "Gallery"]
    case 1 => ["Restaurant", "Market", "Food"]
    case 2 => ["Park", "Garden"]
    case 3 => ["Cathedral", "Palace", "Monument"]
    case _ => ["Show", "Performance"]
  }

  /** `getPlaceType`: the first `if` with a keyword in the name decides. */
  function PlaceType(name: string): string {
    if HasKeyword(name, Keywords(0)) then "Museum"
    else if HasKeyword(name, Keywords(1)) then "Restaurant"
    else if HasKeyword(name, Keywords(2)) then "Park"
    else if HasKeyword(name, Keywords(3)) then "Landmark"
    else if HasKeyword(name, Keywords(4)) then "Entertainment"
    else "Attraction"
  }

  /** The type `getPlaceType` returns from its `j`-th `if`. */
  function Category(j: nat): string
    requires j < 5
  {
    match j
    case 0 => "Museum"
    case 1 => "Restaurant"
    case 2 => "Park"
    case 3 => "Landmark"
    case _ => "Entertainment"
  }

  /** The first keyword group with a hit in the name decides its type; a name
      with no hit in any group is an "Attraction". */
  lemma PlaceTypeFirstMatch(name: string)
    ensures forall j :: 0 <= j < 5 && HasKeyword(name, Keywords(j)) &&
                        (forall e :: 0 <= e < j ==> !HasKeyword(name, Keywords(e))) ==>
              PlaceType(name) == Category(j)
    ensures (forall j :: 0 <= j < 5 ==> !HasKeyword(name, Keywords(j))) ==> PlaceType(name) == "Attraction"
  {
    forall j | 0 <= j < 5 && HasKeyword(name, Keywords(j)) &&
               (forall e :: 0 <= e < j ==> !HasKeyword(name, Keywords(e)))
      ensures PlaceType(name) == Category(j)
    {
      if j > 0 { assert !HasKeyword(name, Keywords(0)); }
      if j > 1 { assert !HasKeyword(name, Keywords(1)); }
      if j > 2 { assert !HasKeyword(name, Keywords(2)); }
      if j > 3 { assert !HasKeyword(name, Keywords(3)); }
    }
    if forall j :: 0 <= j < 5 ==> !HasKeyword(name, Keywords(j)) {
      assert !HasKeyword(name, Keywords(0)) && !HasKeyword(name, Keywords(1)) && !HasKeyword(name, Keywords(2));
      assert !HasKeyword(name, Keywords(3)) && !HasKeyword(name, Keywords(4));
    }
  }

  /** A keyword list has a hit in `place + " in " + destination` exactly when it
      has one in the place, if none of its keywords occurs in the destination. */
  lemma {:induction false} HasKeywordAcross(place: string, destination: string, keywords: seq<string>)
    requires forall w :: 0 <= w < |keywords| ==>
               ' ' !in keywords[w] && |keywords[w]| > 2 && !Contains(destination, keywords[w])
    ensures HasKeyword(place + " in " + destination, keywords) <==> HasKeyword(place, keywords)
    decreases |keywords|
  {
    if keywords != [] {
      var name := place + " in " + destination;
      assert name == place + " " + "in" + " " + destination;
      ContainsAcrossSeparator(place, "in", destination, keywords[0]);
      HasKeywordAcross(place, destination, keywords[1..]);
    }
  }

  /** The name the generator classifies is `place + " in " + destination`. Every
      keyword is free of spaces and longer than "in", so a destination holding no
      keyword leaves the category to the place alone. */
  lemma DestinationWithoutKeywordsIsNeutral(place: string, destination: string)
    requires forall j, w :: 0 <= j < 5 && 0 <= w < |Keywords(j)| ==> !Contains(destination, Keywords(j)[w])
    ensures PlaceType(place + " in " + destination) == PlaceType(place)
  {
    KeywordsAreWords(0);
    HasKeywordAcross(place, destination, Keywords(0));
    KeywordsAreWords(1);
    HasKeywordAcross(place, destination, Keywords(1));
    KeywordsAreWords(2);
    HasKeywordAcross(place, destination, Keywords(2));
    KeywordsAreWords(3);
    HasKeywordAcross(place, destination, Keywords(3));
    KeywordsAreWords(4);
    HasKeywordAcross(place, destination, Keywords(4));
  }

  /** Every keyword is a single word longer than "in". */
  lemma KeywordsAreWords(j: nat)
    requires j < 5
    ensures forall w :: 0 <= w < |Keywords(j)| ==> ' ' !in Keywords(j)[w] && |Keywords(j)[w]| > 2
  {
  }

  // ----- the generated days, as functions of the trip and the random draws -----

  /** `daysDiff`: the inclusive span in whole days. */
  function DaysDiff(trip: Trip): int {
    trip.endDate - trip.startDate + 1
  }

  /** How many times the day loop runs. */
  function DayCount(trip: Trip): (n: nat)
    ensures n == 0 <==> trip.endDate < trip.startDate
    ensures n > 0 ==> trip.startDate + (n - 1) == trip.endDate
  {
    if DaysDiff(trip) > 0 then DaysDiff(trip) else 0
  }

  /** `Math.floor(trip.budget / daysDiff)`. It is only read inside the day loop,
      so when the span is not positive its value does not matter and 0 stands in. */
  function BudgetPerDay(trip: Trip): int {
    if DaysDiff(trip) > 0 then trip.budget / DaysDiff(trip) else 0
  }

  /** The fixed part of every activity cost: `Math.floor(budgetPerDay / 4)`. */
  function BaseCost(trip: Trip): int {
    BudgetPerDay(trip) / 4
  }

  /** With a positive span, the per-day budget is the floor of the budget over
      the days, and the three base costs of every day stay within the budget. */
  lemma BudgetPerDayIsFloor(trip: Trip)
    requires DayCount(trip) > 0
    ensures BudgetPerDay(trip) * DayCount(trip) <= trip.budget < (BudgetPerDay(trip) + 1) * DayCount(trip)
    ensures trip.budget >= 0 ==> 3 * BaseCost(trip) * DayCount(trip) <= trip.budget
  {
    var d := DayCount(trip);
    var b := BudgetPerDay(trip);
    assert b == trip.budget / d;
    assert b * d <= trip.budget < (b + 1) * d;
    if trip.budget >= 0 {
      var c := BaseCost(trip);
      assert 0 <= 3 * c <= b;
      assert 3 * c * d <= b * d;
    }
  }

  /** `Math.floor(budgetPerDay / 4) + Math.floor(Math.random() * 500)`: a cost
      between a quarter of the daily budget and 499 above it. */
  function SlotCost(budgetPerDay: int, u: Unit): (cost: int)
    ensures budgetPerDay / 4 <= cost < budgetPerDay / 4 + 500
  {
    budgetPerDay / 4 + Pick(u, 500)
  }

  /** Index of the first `Math.random` call made for activity number `n` (`i * 3 + idx`):
      each activity draws a place when there are interests, then its cost and
      the latitude and longitude offsets. */
  function FirstDraw(trip: Trip, n: nat): nat {
    if |trip.interests| > 0 then 4 * n else 3 * n
  }

  /** Index of the cost draw of activity number `n`. */
  function CostDraw(trip: Trip, n: nat): nat {
    FirstDraw(trip, n) + (if |trip.interests| > 0 then 1 else 0)
  }

  /** `getRandomPlace(n)` given the draw it may consume. */
  function BasePlace(interests: seq<string>, n: nat, u: Unit): (r: string)
    ensures |interests| > 0 ==> r in PlacesFor(interests[n % |interests|])
    ensures |interests| == 0 ==> r == DefaultPlaces()[n % 8]
  {
    if |interests| > 0 then
      var places := PlacesFor(interests[n % |interests|]);
      places[Pick(u, |places|)]
    else DefaultPlaces()[n % |DefaultPlaces()|]
  }

  function PlaceName(trip: Trip, n: nat, rand: RandomSource): string {
    BasePlace(trip.interests, n, rand(FirstDraw(trip, n))) + " in " + trip.destination
  }

  /** The closing sentence of a description, chosen by the slot name. */
  function SlotSentence(slot: string): string {
    if slot == "Morning" then "Start your day with this amazing experience."
    else if slot == "Afternoon" then "Perfect afternoon activity to discover local culture."
    else "End your day with this memorable visit."
  }

  /** The activity object the slot callback returns, given its place name and cost. */
  function ActivityRecord(idx: nat, name: string, cost: int, destination: string): Activity
    requires idx < 3
  {
    Activity(
      TimeSlots[idx],
      name,
      PlaceType(name),
      "Explore and enjoy " + name + ". " + SlotSentence(TimeSlots[idx]),
      Some(cost),
      Some(name + ", " + destination))
  }

  /** Activity `idx` of day `i` (both 0-based): the activity number is `3i + idx`. */
  function MockActivity(trip: Trip, i: nat, idx: nat, rand: RandomSource): (a: Activity)
    requires idx < 3
    ensures a.timeSlot == TimeSlots[idx] == SlotNames[idx]
    ensures a.placeName == PlaceName(trip, 3 * i + idx, rand)
    ensures a.estimatedCost.Some?
    ensures BaseCost(trip) <= a.estimatedCost.value < BaseCost(trip) + 500
    ensures a.placeType == PlaceType(a.placeName)
    ensures a.description == "Explore and enjoy " + a.placeName + ". " + SlotSentence(a.timeSlot)
    ensures a.address == Some(a.placeName + ", " + trip.destination)
  {
    var n := 3 * i + idx;
    ActivityRecord(idx, PlaceName(trip, n, rand), SlotCost(BudgetPerDay(trip), rand(CostDraw(trip, n))), trip.destination)
  }

  /** The summary of day `i` (0-based). */
  function DaySummary(trip: Trip, i: nat): (r: string)
    ensures |trip.interests| == 0 ==> r == "Day " + NatToString(i + 1) + ": Exploring " + trip.destination
    ensures |trip.interests| > 0 ==>
              r == "Day " + NatToString(i + 1) + ": Exploring " + trip.destination
                   + " - Focus on " + trip.interests[i % |trip.interests|]
  {
    "Day " + NatToString(i + 1) + ": Exploring " + trip.destination
    + (if |trip.interests| > 0 then " - Focus on " + trip.interests[i % |trip.interests|] else "")
  }

  function TravelNote(t: TravelType): string {
    match t
    case Family => "Family-friendly activities planned."
    case Couple => "Romantic experiences included."
    case Solo => "Great opportunities to meet locals."
    case _ => "Enjoy with your travel companions!"
  }

  function DayNotes(trip: Trip): string {
    "Remember to stay hydrated and wear comfortable shoes. " + TravelNote(trip.travelType)
  }

  /** Family, couple and solo trips each get their own sentence; every other
      travel type gets the same one. */
  lemma TravelNotesDistinguishThreeTypes(t1: TravelType, t2: TravelType)
    ensures TravelNote(t1) == TravelNote(t2) <==>
              t1 == t2 || (t1 in {Friends, Business, Other} && t2 in {Friends, Business, Other})
  {
  }

  /** The day object the loop pushes for day `i` (0-based), given its activities. */
  function DayRecord(trip: Trip, i: nat, activities: seq<Activity>): (r: Day)
    ensures r.dayNumber == i + 1 && r.date == Some(trip.startDate + i) && r.estimatedDayCost == 0
    ensures r.activities == activities
    ensures r.summary == DaySummary(trip, i) && r.notes == DayNotes(trip)
  {
    Day(i + 1, Some(trip.startDate + i), DaySummary(trip, i), activities, DayNotes(trip), 0)
  }

  /** `timeSlots.map(...)` for day `i`: its three activities, in slot order. */
  function MockActivities(trip: Trip, i: nat, rand: RandomSource): (r: seq<Activity>)
    ensures |r| == |TimeSlots|
    ensures forall k :: 0 <= k < |r| ==> r[k] == MockActivity(trip, i, k, rand)
  {
    seq(|TimeSlots|, k requires 0 <= k < |TimeSlots| => MockActivity(trip, i, k, rand))
  }

  function MockDay(trip: Trip, i: nat, rand: RandomSource): (r: Day)
    ensures r.dayNumber == i + 1 && r.date == Some(trip.startDate + i) && r.estimatedDayCost == 0
    ensures r.activities == MockActivities(trip, i, rand)
    ensures r.summary == DaySummary(trip, i) && r.notes == DayNotes(trip)
  {
    DayRecord(trip, i, MockActivities(trip, i, rand))
  }

  /** The `days` array of the synthetic itinerary. */
  function MockDays(trip: Trip, rand: RandomSource): (r: seq<Day>)
    ensures |r| == DayCount(trip)
    ensures r == [] <==> trip.endDate < trip.startDate
    ensures forall i :: 0 <= i < |r| ==> r[i] == MockDay(trip, i, rand)
  {
    seq(DayCount(trip), i requires 0 <= i < DayCount(trip) => MockDay(trip, i, rand))
  }

  // ----- properties of the generated days -----

  /** One record per day of the trip, numbered from 1 and dated consecutively from
      the start date, each with a morning, an afternoon and an evening activity. */
  lemma MockDaysShape(trip: Trip, rand: RandomSource)
    ensures var r := MockDays(trip, rand);
            forall i :: 0 <= i < |r| ==>
              && r[i].dayNumber == i + 1
              && r[i].date == Some(trip.startDate + i)
              && |r[i].activities| == |TimeSlots|
              && forall k :: 0 <= k < |TimeSlots| ==> r[i].activities[k].timeSlot == TimeSlots[k]
  {
    var r := MockDays(trip, rand);
    forall i | 0 <= i < |r|
      ensures r[i].activities == MockActivities(trip, i, rand)
    {
    }
  }

  /** Every generated cost lies in `[base, base + 500)`, `base` being a quarter of
      the per-day budget. */
  lemma MockCostRange(trip: Trip, rand: RandomSource)
    ensures var r := MockDays(trip, rand);
            forall i, k :: 0 <= i < |r| && 0 <= k < |r[i].activities| ==>
              && r[i].activities[k].estimatedCost.Some?
              && BaseCost(trip) <= r[i].activities[k].estimatedCost.value < BaseCost(trip) + 500
  {
    var r := MockDays(trip, rand);
    forall i, k | 0 <= i < |r| && 0 <= k < |r[i].activities|
      ensures r[i].activities[k] == MockActivity(trip, i, k, rand)
    {
      assert r[i].activities == MockActivities(trip, i, rand);
    }
  }

  /** The place of activity number `n`: fully determined by `n` when there are
      no interests; otherwise some entry of the catalog of interest
      `interests[n mod len]`. */
  lemma PlaceNameChoice(trip: Trip, n: nat, rand: RandomSource)
    ensures var name := PlaceName(trip, n, rand);
            && (|trip.interests| == 0 ==>
                  name == DefaultPlaces()[n % 8] + " in " + trip.destination)
            && (|trip.interests| > 0 ==>
                  var places := PlacesFor(trip.interests[n % |trip.interests|]);
                  exists j :: 0 <= j < |places| && name == places[j] + " in " + trip.destination)
  {
    if |trip.interests| > 0 {
      var places := PlacesFor(trip.interests[n % |trip.interests|]);
      var j := Pick(rand(FirstDraw(trip, n)), |places|);
      assert PlaceName(trip, n, rand) == places[j] + " in " + trip.destination;
    }
  }

  /** The same, read off the generated days: activity `k` of day `i` is activity
      number `3i + k`. */
  lemma MockPlaceChoice(trip: Trip, rand: RandomSource, i: nat, k: nat)
    requires i < DayCount(trip) && k < 3
    ensures var name := MockDays(trip, rand)[i].activities[k].placeName;
            && (|trip.interests| == 0 ==>
                  name == DefaultPlaces()[(3 * i + k) % 8] + " in " + trip.destination)
            && (|trip.interests| > 0 ==>
                  var places := PlacesFor(trip.interests[(3 * i + k) % |trip.interests|]);
                  exists j :: 0 <= j < |places| && name == places[j] + " in " + trip.destination)
  {
    var d := MockDays(trip, rand)[i];
    assert d == MockDay(trip, i, rand);
    assert d.activities[k] == MockActivity(trip, i, k, rand);
    PlaceNameChoice(trip, 3 * i + k, rand);
  }

  lemma ActivitiesCostOfThree(acts: seq<Activity>)
    requires |acts| == 3
    ensures ActivitiesCost(acts) == ActivityCost(acts[0]) + ActivityCost(acts[1]) + ActivityCost(acts[2])
  {
    assert acts[..2][..1] == acts[..1] && acts[..1][..0] == [];
    assert ActivitiesCost(acts[..1]) == ActivityCost(acts[0]);
    assert ActivitiesCost(acts[..2]) == ActivityCost(acts[0]) + ActivityCost(acts[1]);
  }

  /** One day's three costs add up to between three times the base cost and
      that plus 3 * 499. */
  lemma MockDayCostBounds(trip: Trip, rand: RandomSource, i: nat)
    requires i < DayCount(trip)
    ensures var c := BaseCost(trip);
            3 * c <= ActivitiesCost(MockDays(trip, rand)[i].activities) <= 3 * c + 1497
  {
    var acts := MockDays(trip, rand)[i].activities;
    assert acts == MockActivities(trip, i, rand);
    ActivitiesCostOfThree(acts);
    var c := BaseCost(trip);
    assert c <= ActivityCost(acts[0]) < c + 500;
    assert c <= ActivityCost(acts[1]) < c + 500;
    assert c <= ActivityCost(acts[2]) < c + 500;
  }

  /** A generated place name is never blank: it contains the word "in". */
  lemma PlaceNameNotBlank(trip: Trip, n: nat, rand: RandomSource)
    ensures Trim(PlaceName(trip, n, rand)) != []
  {
    var base := BasePlace(trip.interests, n, rand(FirstDraw(trip, n)));
    var name := PlaceName(trip, n, rand);
    assert name[|base| + 1] == 'i';
  }

  /** The `trim` setters keep an activity valid as long as its place name is not blank. */
  lemma CastKeepsActivityValid(a: Activity)
    requires ValidActivity(a) && Trim(a.placeName) != []
    ensures ValidActivity(CastActivity(a))
  {
  }

  lemma BaseCostNonNegative(trip: Trip)
    requires trip.budget >= 0
    ensures BaseCost(trip) >= 0
  {
    assert BudgetPerDay(trip) >= 0;
  }

  /** An activity record with a non-blank name and a non-negative cost passes
      the activity schema, before and after the `trim` setters. */
  lemma ActivityRecordIsValid(idx: nat, name: string, cost: int, destination: string)
    requires idx < 3 && Trim(name) != [] && cost >= 0
    ensures ValidActivity(ActivityRecord(idx, name, cost, destination))
    ensures ValidActivity(CastActivity(ActivityRecord(idx, name, cost, destination)))
  {
    var a := ActivityRecord(idx, name, cost, destination);
    assert a.timeSlot == SlotNames[idx];
    CastKeepsActivityValid(a);
  }

  /** A generated activity passes the activity schema, before and after the
      `trim` setters. */
  lemma MockActivityIsValid(trip: Trip, i: nat, k: nat, rand: RandomSource)
    requires trip.budget >= 0 && k < 3
    ensures ValidActivity(MockActivity(trip, i, k, rand))
    ensures ValidActivity(CastActivity(MockActivity(trip, i, k, rand)))
  {
    var n := 3 * i + k;
    BaseCostNonNegative(trip);
    PlaceNameNotBlank(trip, n, rand);
    ActivityRecordIsValid(k, PlaceName(trip, n, rand), SlotCost(BudgetPerDay(trip), rand(CostDraw(trip, n))), trip.destination);
  }

  /** The `trim` setters keep a day valid when they keep each of its activities valid. */
  lemma CastKeepsDayValid(d: Day)
    requires ValidDay(d)
    requires forall k :: 0 <= k < |d.activities| ==> ValidActivity(CastActivity(d.activities[k]))
    ensures ValidDay(CastDay(d))
  {
  }

  lemma MockDayIsValid(trip: Trip, i: nat, rand: RandomSource)
    requires trip.budget >= 0
    ensures ValidDay(MockDay(trip, i, rand)) && ValidDay(CastDay(MockDay(trip, i, rand)))
  {
    var d := MockDay(trip, i, rand);
    forall k | 0 <= k < |d.activities|
      ensures ValidActivity(d.activities[k]) && ValidActivity(CastActivity(d.activities[k]))
    {
      MockActivityIsValid(trip, i, k, rand);
    }
    CastKeepsDayValid(d);
  }

  /** With a non-negative budget the synthetic days pass every constraint of
      the itinerary schema, before and after the `trim` setters. */
  lemma MockDaysAreValid(trip: Trip, rand: RandomSource)
    requires trip.budget >= 0
    ensures ValidDays(MockDays(trip, rand))
    ensures ValidDays(CastDays(MockDays(trip, rand)))
  {
    var days := MockDays(trip, rand);
    forall i | 0 <= i < |days|
      ensures ValidDay(days[i]) && ValidDay(CastDays(days)[i])
    {
      MockDayIsValid(trip, i, rand);
    }
  }

  // ----- the generator as the source writes it -----

  lemma MockDayAppended(trip: Trip, rand: RandomSource, days: seq<Day>, day: Day)
    requires DaysDiff(trip) > 0
    requires forall d :: 0 <= d < |days| ==> days[d] == MockDay(trip, d, rand)
    requires day == MockDay(trip, |days|, rand)
    ensures forall d :: 0 <= d < |days| + 1 ==> (days + [day])[d] == MockDay(trip, d, rand)
  {
  }

  /** `getRandomPlace(n)` with `Math.random` at call number `draw`: it draws
      only when there are interests. */
  method RandomPlace(interests: seq<string>, n: nat, rand: RandomSource, draw: nat)
    returns (place: string, next: nat)
    ensures place == BasePlace(interests, n, rand(draw))
    ensures next == draw + (if |interests| > 0 then 1 else 0)
  {
    if |interests| > 0 {
      var places := PlacesFor(interests[n % |interests|]);
      place := places[Pick(rand(draw), |places|)];
      next := draw + 1;
    } else {
      place := DefaultPlaces()[n % |DefaultPlaces()|];
      next := draw;
    }
  }

  /** The callback of the slot `map`: activity `idx` of day `i`, calling
      `Math.random` from call number `draw` on. */
  method SlotActivity(trip: Trip, i: nat, idx: nat, budgetPerDay: int, rand: RandomSource, draw: nat)
    returns (activity: Activity, next: nat)
    requires idx < 3 && budgetPerDay == BudgetPerDay(trip)
    requires draw == FirstDraw(trip, 3 * i + idx)
    ensures activity == MockActivity(trip, i, idx, rand)
    ensures next == FirstDraw(trip, 3 * i + idx + 1)
  {
    var place;
    place, next := RandomPlace(trip.interests, 3 * i + idx, rand, draw);
    var placeName := place + " in " + trip.destination;
    var cost := SlotCost(budgetPerDay, rand(next));
    next := next + 1;
    next := next + 2;  // the latitude and longitude offsets
    activity := ActivityRecord(idx, placeName, cost, trip.destination);
  }

  /** The slot `map` of one day: its three activities, in slot order. */
  method DayActivities(trip: Trip, i: nat, budgetPerDay: int, rand: RandomSource, draw: nat)
    returns (activities: seq<Activity>, next: nat)
    requires budgetPerDay == BudgetPerDay(trip)
    requires draw == FirstDraw(trip, 3 * i)
    ensures activities == MockActivities(trip, i, rand)
    ensures next == FirstDraw(trip, 3 * i + 3)
  {
    next := draw;
    activities := [];
    for idx := 0 to 3
      invariant |activities| == idx
      invariant forall k :: 0 <= k < idx ==> activities[k] == MockActivity(trip, i, k, rand)
      invariant next == FirstDraw(trip, 3 * i + idx)
    {
      var activity;
      activity, next := SlotActivity(trip, i, idx, budgetPerDay, rand, next);
      activities := activities + [activity];
    }
  }

  /** `generateMockItinerary`: a day loop pushing day records, each built by
      mapping the three slots, with `Math.random` called in the source's order. */
  method GenerateMock(trip: Trip, rand: RandomSource) returns (days: seq<Day>)
    ensures days == MockDays(trip, rand)
  {
    var daysDiff := trip.endDate - trip.startDate + 1;
    // Division by a non-positive span never reaches a day record: the loop below does not run.
    var budgetPerDay := if daysDiff > 0 then trip.budget / daysDiff else 0;
    var draw: nat := 0;  // how many times Math.random has been called
    days := [];
    var i: nat := 0;
    while i < daysDiff
      invariant daysDiff > 0 ==> i <= daysDiff
      invariant daysDiff <= 0 ==> i == 0
      invariant |days| == i
      invariant forall d :: 0 <= d < i ==> days[d] == MockDay(trip, d, rand)
      invariant draw == FirstDraw(trip, 3 * i)
    {
      var activities;
      activities, draw := DayActivities(trip, i, budgetPerDay, rand, draw);
      var day := DayRecord(trip, i, activities);
      MockDayAppended(trip, rand, days, day);
      days := days + [day];
      i := i + 1;
    }
  }
}
