/** The controllers of server/controllers/tripController.js, aiController.js
    and itineraryController.js as the operations of one store holding the
    `trips` and `itineraries` collections. Every operation acts for the
    authenticated user `user`: a record of someone else's is reported exactly
    as a missing one, and a refused request leaves the store as it was. */
module Store {
  import opened Wrappers
  import opened TripModel
  import opened ItineraryModel
  import opened MockGenerator
  import opened Providers
  import TripRequests

  /** Why a request failed: the status and message the controller hands to
      `next`, or a document the schema refused on `save()` (the error handler
      that turns that into a response is not part of this model). */
  datatype Failure = Fail(status: nat, reason: Reason) | Invalid

  datatype Reason =
    | TripNotFound
    | ItineraryNotFound
    | AlreadyGenerated
    | AlreadyExists
    | GeneratedEmpty
    | DaysRequired
    | TripAndDaysRequired

  /** The length of each message, which tells the messages apart. */
  function MessageLength(r: Reason): nat {
    match r
    case TripNotFound => 14
    case ItineraryNotFound => 19
    case AlreadyGenerated => 83
    case AlreadyExists => 38
    case GeneratedEmpty => 47
    case DaysRequired => 25
    case TripAndDaysRequired => 36
  }

  /** The message the controller passes to `next` for each reason. */
  function Message(r: Reason): (m: string)
    ensures |m| == MessageLength(r)
  {
    match r
    case TripNotFound => "Trip not found"
    case ItineraryNotFound => "Itinerary not found"
    case AlreadyGenerated => "Itinerary already exists for this trip. Delete it first or use the update endpoint."
    case AlreadyExists => "Itinerary already exists for this trip"
    case GeneratedEmpty => "Generated itinerary is empty. Please try again."
    case DaysRequired => "Please provide days array"
    case TripAndDaysRequired => "Please provide tripId and days array"
  }

  /** Every reason has a message of its own. */
  lemma MessagesDistinct(a: Reason, b: Reason)
    ensures Message(a) == Message(b) <==> a == b
  {
    if a != b {
      assert MessageLength(a) != MessageLength(b);
    }
  }

  /** Trip ids below `nextId`, stamps below `clock` and increasing with the id,
      every trip valid. */
  ghost predicate TripsWellFormed(trips: map<TripId, Trip>, nextId: nat, clock: nat) {
    && (forall id :: id in trips ==> id < nextId && trips[id].createdAt < clock)
    && (forall a, b :: a in trips && b in trips && a < b ==> trips[a].createdAt < trips[b].createdAt)
    && (forall id {:trigger ValidTrip(trips[id])} :: id in trips ==> ValidTrip(trips[id]))
  }

  /** Every document passed validation and went through the save hook. */
  ghost predicate AllSaved(itineraries: map<ItineraryId, Itinerary>) {
    forall id {:trigger Stored(itineraries[id])} :: id in itineraries ==> Stored(itineraries[id])
  }

  /** What `save()` guarantees of a document it stored. */
  ghost predicate Stored(doc: Itinerary) {
    ValidDocument(doc) && CostsConsistent(doc)
  }

  /** Itinerary ids below `nextId`; each itinerary belongs to an existing trip
      of the same user; `byTrip` indexes exactly the itineraries, one per trip. */
  ghost predicate Linked(trips: map<TripId, Trip>, itineraries: map<ItineraryId, Itinerary>,
                         byTrip: map<TripId, ItineraryId>, nextId: nat) {
    && (forall id :: id in itineraries ==> id < nextId)
    && (forall id :: id in itineraries ==>
          itineraries[id].tripId in trips && trips[itineraries[id].tripId].userId == itineraries[id].userId)
    && (forall t :: t in byTrip ==> byTrip[t] in itineraries && itineraries[byTrip[t]].tripId == t)
    && (forall id :: id in itineraries ==>
          itineraries[id].tripId in byTrip && byTrip[itineraries[id].tripId] == id)
  }

  // ----- how each kind of step keeps the invariant -----

  lemma AddTripKeepsInvariant(trips: map<TripId, Trip>, itineraries: map<ItineraryId, Itinerary>,
                              byTrip: map<TripId, ItineraryId>, nextId: nat, clock: nat, trip: Trip)
    requires TripsWellFormed(trips, nextId, clock) && Linked(trips, itineraries, byTrip, nextId)
    requires ValidTrip(trip) && trip.createdAt == clock
    ensures TripsWellFormed(trips[nextId := trip], nextId + 1, clock + 1)
    ensures Linked(trips[nextId := trip], itineraries, byTrip, nextId + 1)
  {
    var t := trips[nextId := trip];
    forall id | id in t ensures ValidTrip(t[id]) {
      if id != nextId {
        assert t[id] == trips[id];
      }
    }
  }

  lemma DropItineraryKeepsInvariant(trips: map<TripId, Trip>, itineraries: map<ItineraryId, Itinerary>,
                                    byTrip: map<TripId, ItineraryId>, nextId: nat, t: TripId)
    requires AllSaved(itineraries) && Linked(trips, itineraries, byTrip, nextId)
    ensures var left := if t in byTrip then itineraries - {byTrip[t]} else itineraries;
            && AllSaved(left)
            && Linked(trips, left, byTrip - {t}, nextId)
            && forall id :: id in left ==> left[id].tripId != t
  {
  }

  lemma RemoveTripKeepsInvariant(trips: map<TripId, Trip>, itineraries: map<ItineraryId, Itinerary>,
                                 byTrip: map<TripId, ItineraryId>, nextId: nat, clock: nat, id: TripId)
    requires TripsWellFormed(trips, nextId, clock) && Linked(trips, itineraries, byTrip, nextId)
    requires forall i :: i in itineraries ==> itineraries[i].tripId != id
    ensures TripsWellFormed(trips - {id}, nextId, clock)
    ensures Linked(trips - {id}, itineraries, byTrip, nextId)
  {
    var t := trips - {id};
    forall k | k in t ensures ValidTrip(t[k]) {
      assert t[k] == trips[k];
    }
  }

  lemma AddItineraryKeepsInvariant(trips: map<TripId, Trip>, itineraries: map<ItineraryId, Itinerary>,
                                   byTrip: map<TripId, ItineraryId>, nextId: nat, doc: Itinerary)
    requires AllSaved(itineraries) && Linked(trips, itineraries, byTrip, nextId)
    requires doc.tripId in trips && trips[doc.tripId].userId == doc.userId && doc.tripId !in byTrip
    requires ValidDocument(doc) && CostsConsistent(doc)
    ensures AllSaved(itineraries[nextId := doc])
    ensures Linked(trips, itineraries[nextId := doc], byTrip[doc.tripId := nextId], nextId + 1)
  {
  }

  lemma ReplaceItineraryKeepsInvariant(trips: map<TripId, Trip>, itineraries: map<ItineraryId, Itinerary>,
                                       byTrip: map<TripId, ItineraryId>, nextId: nat, id: ItineraryId, doc: Itinerary)
    requires AllSaved(itineraries) && Linked(trips, itineraries, byTrip, nextId)
    requires id in itineraries && doc.tripId == itineraries[id].tripId && doc.userId == itineraries[id].userId
    requires ValidDocument(doc) && CostsConsistent(doc)
    ensures AllSaved(itineraries[id := doc])
    ensures Linked(trips, itineraries[id := doc], byTrip, nextId)
  {
  }

  class TravelStore {
    var trips: map<TripId, Trip>
    var itineraries: map<ItineraryId, Itinerary>
    /** The unique index on `tripId`: the id of each trip's itinerary. */
    var byTrip: map<TripId, ItineraryId>
    /** The next fresh document id; both collections draw from it. */
    var nextId: nat
    /** The `createdAt` stamp the next trip receives. */
    var clock: nat

    ghost predicate Valid()
      reads this
    {
      TripsWellFormed(trips, nextId, clock) && AllSaved(itineraries) && Linked(trips, itineraries, byTrip, nextId)
    }

    constructor ()
      ensures Valid()
      ensures trips == map[] && itineraries == map[] && byTrip == map[]
    {
      trips, itineraries, byTrip := map[], map[], map[];
      nextId, clock := 0, 0;
    }

    /** `findOne({ _id, userId })` on the trips. */
    predicate OwnsTrip(user: UserId, id: TripId)
      reads this
    {
      id in trips && trips[id].userId == user
    }

    /** `findOne({ _id, userId })` on the itineraries. */
    predicate OwnsItinerary(user: UserId, id: ItineraryId)
      reads this
    {
      id in itineraries && itineraries[id].userId == user
    }

    /** `Itinerary.findOne({ tripId })`. */
    function ItineraryOfTrip(t: TripId): Option<Itinerary>
      reads this
    {
      if t in byTrip && byTrip[t] in itineraries then Some(itineraries[byTrip[t]]) else None
    }

    /** The itineraries left once the one of trip `t`, if any, is deleted. */
    function WithoutItineraryOf(t: TripId): map<ItineraryId, Itinerary>
      reads this
    {
      if t in byTrip then itineraries - {byTrip[t]} else itineraries
    }

    // ----- the two store steps the controllers share -----

    /** `Itinerary.deleteOne({ tripId: t })`. */
    method DropItineraryOf(t: TripId)
      requires Valid()
      modifies this
      ensures Valid()
      ensures itineraries == old(WithoutItineraryOf(t))
      ensures byTrip == old(byTrip) - {t}
      ensures trips == old(trips) && nextId == old(nextId) && clock == old(clock)
      ensures forall id :: id in itineraries ==> itineraries[id].tripId != t
    {
      DropItineraryKeepsInvariant(trips, itineraries, byTrip, nextId, t);
      if t in byTrip {
        itineraries := itineraries - {byTrip[t]};
      }
      byTrip := byTrip - {t};
    }

    /** Store a saved itinerary document under a fresh id. */
    method AddItinerary(doc: Itinerary) returns (id: ItineraryId)
      requires Valid()
      requires OwnsTrip(doc.userId, doc.tripId) && doc.tripId !in byTrip
      requires ValidDocument(doc) && CostsConsistent(doc)
      modifies this
      ensures Valid()
      ensures id == old(nextId) && id !in old(itineraries)
      ensures itineraries == old(itineraries)[id := doc]
      ensures byTrip == old(byTrip)[doc.tripId := id]
      ensures trips == old(trips) && nextId == old(nextId) + 1 && clock == old(clock)
    {
      AddItineraryKeepsInvariant(trips, itineraries, byTrip, nextId, doc);
      id := nextId;
      itineraries := itineraries[id := doc];
      byTrip := byTrip[doc.tripId := id];
      nextId := nextId + 1;
    }

    /** Store a created trip under a fresh id, stamped with the current clock. */
    method AddTrip(trip: Trip) returns (id: TripId)
      requires Valid() && ValidTrip(trip) && trip.createdAt == clock
      modifies this
      ensures Valid()
      ensures id == old(nextId) && id !in old(trips)
      ensures trips == old(trips)[id := trip]
      ensures itineraries == old(itineraries) && byTrip == old(byTrip)
      ensures nextId == old(nextId) + 1 && clock == old(clock) + 1
    {
      AddTripKeepsInvariant(trips, itineraries, byTrip, nextId, clock, trip);
      id := nextId;
      trips := trips[id := trip];
      nextId, clock := nextId + 1, clock + 1;
    }

    // ----- server/controllers/tripController.js -----

    /** `createTrip`: the request checks and `Trip.create`; a stored trip gets a
        fresh id and the current stamp. */
    method CreateTrip(user: UserId, req: TripRequests.TripRequest, parseDate: TripRequests.DateParser)
      returns (r: Result<(TripId, Trip), TripRequests.Rejection>)
      requires Valid()
      modifies this
      ensures Valid()
      ensures var made := TripRequests.CreateTrip(req, user, parseDate, old(clock));
              && (r.Failure? <==> made.Failure?)
              && (r.Failure? ==> r.error == made.error && unchanged(this))
              && (r.Success? ==>
                    && r.value == (old(nextId), made.value)
                    && trips == old(trips)[old(nextId) := made.value]
                    && itineraries == old(itineraries) && byTrip == old(byTrip)
                    && nextId == old(nextId) + 1 && clock == old(clock) + 1)
    {
      var made := TripRequests.CreateTrip(req, user, parseDate, clock);
      if made.Failure? {
        return Failure(made.error);
      }
      var id := AddTrip(made.value);
      r := Success((id, made.value));
    }

    /** `getTrips`: the caller's trips, newest first, with their number. The
        walk goes down the ids, which are in `createdAt` order. */
    method GetTrips(user: UserId) returns (ids: seq<TripId>, list: seq<Trip>, count: nat)
      requires Valid()
      ensures count == |list| == |ids|
      ensures forall k :: 0 <= k < |ids| ==> OwnsTrip(user, ids[k]) && list[k] == trips[ids[k]]
      ensures forall id :: OwnsTrip(user, id) ==> id in ids
      ensures forall j, k :: 0 <= j < k < |list| ==> list[j].createdAt > list[k].createdAt
    {
      ids, list := [], [];
      var i := nextId;
      while i > 0
        invariant i <= nextId
        invariant |ids| == |list|
        invariant forall k :: 0 <= k < |ids| ==> OwnsTrip(user, ids[k]) && list[k] == trips[ids[k]] && i <= ids[k]
        invariant forall id :: i <= id && OwnsTrip(user, id) ==> id in ids
        invariant forall j, k :: 0 <= j < k < |ids| ==> ids[j] > ids[k]
      {
        i := i - 1;
        if i in trips && trips[i].userId == user {
          ids, list := ids + [i], list + [trips[i]];
        }
      }
      count := |list|;
    }

    /** `getTrip`: the caller's trip with its itinerary, or null for none. */
    method GetTrip(user: UserId, id: TripId) returns (r: Result<(Trip, Option<Itinerary>), Failure>)
      requires Valid()
      ensures r.Failure? <==> !OwnsTrip(user, id)
      ensures r.Failure? ==> r.error == Fail(404, TripNotFound)
      ensures r.Success? ==> r.value == (trips[id], ItineraryOfTrip(id))
      ensures r.Success? && r.value.1.Some? ==> r.value.1.value.tripId == id && r.value.1.value.userId == user
    {
      if !(id in trips && trips[id].userId == user) {
        return Failure(Fail(404, TripNotFound));
      }
      var itinerary := if id in byTrip && byTrip[id] in itineraries then Some(itineraries[byTrip[id]]) else None;
      r := Success((trips[id], itinerary));
    }

    /** `deleteTrip`: the trip's itinerary goes first, then the trip. */
    method DeleteTrip(user: UserId, id: TripId) returns (r: Result<(), Failure>)
      requires Valid()
      modifies this
      ensures Valid()
      ensures r.Failure? <==> !old(OwnsTrip(user, id))
      ensures r.Failure? ==> r.error == Fail(404, TripNotFound) && unchanged(this)
      ensures r.Success? ==>
                && trips == old(trips) - {id}
                && itineraries == old(WithoutItineraryOf(id))
                && byTrip == old(byTrip) - {id}
                && nextId == old(nextId) && clock == old(clock)
    {
      if !(id in trips && trips[id].userId == user) {
        return Failure(Fail(404, TripNotFound));
      }
      DropItineraryOf(id);
      RemoveTripKeepsInvariant(trips, itineraries, byTrip, nextId, clock, id);
      trips := trips - {id};
      r := Success(());
    }

    // ----- server/controllers/aiController.js -----

    /** The tail both generation endpoints share: generate for a trip of the
        caller's that has no itinerary, refuse an empty result, then create. */
    method CreateGenerated(user: UserId, id: TripId, c: Config, rand: RandomSource, reply: Reply, parse: Parser)
      returns (r: Result<(ItineraryId, Itinerary, string), Failure>)
      requires Valid() && OwnsTrip(user, id) && id !in byTrip
      modifies this
      ensures Valid()
      ensures var days := GenerateForTrip(c, old(trips[id]), rand, reply, parse);
              var saved := SaveDocument(Itinerary(id, user, days, 0));
              && (|days| == 0 ==> r == Failure(Fail(500, GeneratedEmpty)) && unchanged(this))
              && (|days| != 0 && saved.None? ==> r == Failure(Invalid) && unchanged(this))
              && (|days| != 0 && saved.Some? ==>
                    && r == Success((old(nextId), saved.value, ConfiguredProvider(c)))
                    && itineraries == old(itineraries)[old(nextId) := saved.value]
                    && byTrip == old(byTrip)[id := old(nextId)]
                    && trips == old(trips) && nextId == old(nextId) + 1 && clock == old(clock))
    {
      var days := GenerateItineraryForTrip(c, trips[id], rand, reply, parse);
      if |days| == 0 {
        return Failure(Fail(500, GeneratedEmpty));
      }
      var saved := Save(Itinerary(id, user, days, 0));
      if saved.None? {
        return Failure(Invalid);
      }
      var itineraryId := AddItinerary(saved.value);
      r := Success((itineraryId, saved.value, ConfiguredProvider(c)));
    }

    /** `generateItinerary`: refuse a second itinerary for the trip, generate,
        refuse an empty result, then create. The returned tag is the configured
        provider, whichever path produced the days. */
    method GenerateItinerary(user: UserId, id: TripId, c: Config, rand: RandomSource, reply: Reply, parse: Parser)
      returns (r: Result<(ItineraryId, Itinerary, string), Failure>)
      requires Valid()
      modifies this
      ensures Valid()
      ensures !old(OwnsTrip(user, id)) ==> r == Failure(Fail(404, TripNotFound)) && unchanged(this)
      ensures old(OwnsTrip(user, id)) && id in old(byTrip) ==>
                r == Failure(Fail(400, AlreadyGenerated)) && unchanged(this)
      ensures old(OwnsTrip(user, id)) && id !in old(byTrip) ==>
                var days := GenerateForTrip(c, old(trips[id]), rand, reply, parse);
                var saved := SaveDocument(Itinerary(id, user, days, 0));
                && (|days| == 0 ==> r == Failure(Fail(500, GeneratedEmpty)) && unchanged(this))
                && (|days| != 0 && saved.None? ==> r == Failure(Invalid) && unchanged(this))
                && (|days| != 0 && saved.Some? ==>
                      && r == Success((old(nextId), saved.value, ConfiguredProvider(c)))
                      && itineraries == old(itineraries)[old(nextId) := saved.value]
                      && byTrip == old(byTrip)[id := old(nextId)]
                      && trips == old(trips) && nextId == old(nextId) + 1 && clock == old(clock))
    {
      if !(id in trips && trips[id].userId == user) {
        return Failure(Fail(404, TripNotFound));
      }
      if id in byTrip {
        return Failure(Fail(400, AlreadyGenerated));
      }
      r := CreateGenerated(user, id, c, rand, reply, parse);
    }

    /** `regenerateItinerary`: the trip's itinerary is deleted before anything
        is generated, so a failed regeneration leaves the trip without one. */
    method RegenerateItinerary(user: UserId, id: TripId, c: Config, rand: RandomSource, reply: Reply, parse: Parser)
      returns (r: Result<(ItineraryId, Itinerary, string), Failure>)
      requires Valid()
      modifies this
      ensures Valid()
      ensures !old(OwnsTrip(user, id)) ==> r == Failure(Fail(404, TripNotFound)) && unchanged(this)
      ensures old(OwnsTrip(user, id)) ==>
                var days := GenerateForTrip(c, old(trips[id]), rand, reply, parse);
                var saved := SaveDocument(Itinerary(id, user, days, 0));
                && trips == old(trips) && clock == old(clock)
                && (|days| == 0 || saved.None? ==>
                      && r == (if |days| == 0 then Failure(Fail(500, GeneratedEmpty)) else Failure(Invalid))
                      && itineraries == old(WithoutItineraryOf(id)) && byTrip == old(byTrip) - {id}
                      && nextId == old(nextId))
                && (|days| != 0 && saved.Some? ==>
                      && r == Success((old(nextId), saved.value, ConfiguredProvider(c)))
                      && itineraries == old(WithoutItineraryOf(id))[old(nextId) := saved.value]
                      && byTrip == old(byTrip)[id := old(nextId)]
                      && nextId == old(nextId) + 1)
    {
      if !(id in trips && trips[id].userId == user) {
        return Failure(Fail(404, TripNotFound));
      }
      ghost var before := byTrip;
      DropItineraryOf(id);
      assert (before - {id})[id := nextId] == before[id := nextId];
      r := CreateGenerated(user, id, c, rand, reply, parse);
    }

    // ----- server/controllers/itineraryController.js -----

    /** `updateItinerary`: the body's `days` replace the stored ones wholesale;
        a supplied `totalEstimatedCost` is validated and then overwritten by
        the save hook, like every day cost. */
    method UpdateItinerary(user: UserId, id: ItineraryId, days: DaysMember, total: Option<int>)
      returns (r: Result<Itinerary, Failure>)
      requires Valid()
      modifies this
      ensures Valid()
      ensures trips == old(trips) && byTrip == old(byTrip) && nextId == old(nextId) && clock == old(clock)
      ensures days.NoDaysArray? ==> r == Failure(Fail(400, DaysRequired)) && unchanged(this)
      ensures days.DayArray? && !old(OwnsItinerary(user, id)) ==>
                r == Failure(Fail(404, ItineraryNotFound)) && unchanged(this)
      ensures days.DayArray? && old(OwnsItinerary(user, id)) ==>
                var before := old(itineraries[id]);
                var saved := SaveDocument(before.(days := days.days,
                                                  totalEstimatedCost := total.GetOr(before.totalEstimatedCost)));
                && (saved.None? ==> r == Failure(Invalid) && unchanged(this))
                && (saved.Some? ==> r == Success(saved.value) && itineraries == old(itineraries)[id := saved.value])
    {
      if days.NoDaysArray? {
        return Failure(Fail(400, DaysRequired));
      }
      if !(id in itineraries && itineraries[id].userId == user) {
        return Failure(Fail(404, ItineraryNotFound));
      }
      var itinerary := itineraries[id];
      // The `Associated trip not found` check never fires: the invariant keeps
      // every itinerary's trip, owned by the same user.
      assert OwnsTrip(user, itinerary.tripId);
      itinerary := itinerary.(days := days.days);
      if total.Some? {
        itinerary := itinerary.(totalEstimatedCost := total.value);
      }
      var saved := Save(itinerary);
      if saved.None? {
        return Failure(Invalid);
      }
      ReplaceItineraryKeepsInvariant(trips, itineraries, byTrip, nextId, id, saved.value);
      itineraries := itineraries[id := saved.value];
      r := Success(saved.value);
    }

    /** `createItinerary`: an itinerary supplied by the client, for a trip of the
        caller's that has none yet. */
    method CreateItinerary(user: UserId, tripId: Option<TripId>, days: DaysMember)
      returns (r: Result<(ItineraryId, Itinerary), Failure>)
      requires Valid()
      modifies this
      ensures Valid()
      ensures tripId.None? || days.NoDaysArray? ==>
                r == Failure(Fail(400, TripAndDaysRequired)) && unchanged(this)
      ensures tripId.Some? && days.DayArray? && !old(OwnsTrip(user, tripId.value)) ==>
                r == Failure(Fail(404, TripNotFound)) && unchanged(this)
      ensures tripId.Some? && days.DayArray? && old(OwnsTrip(user, tripId.value)) && tripId.value in old(byTrip) ==>
                r == Failure(Fail(400, AlreadyExists)) && unchanged(this)
      ensures tripId.Some? && days.DayArray? && old(OwnsTrip(user, tripId.value)) && tripId.value !in old(byTrip) ==>
                var saved := SaveDocument(Itinerary(tripId.value, user, days.days, 0));
                && (saved.None? ==> r == Failure(Invalid) && unchanged(this))
                && (saved.Some? ==>
                      && r == Success((old(nextId), saved.value))
                      && itineraries == old(itineraries)[old(nextId) := saved.value]
                      && byTrip == old(byTrip)[tripId.value := old(nextId)]
                      && trips == old(trips) && nextId == old(nextId) + 1 && clock == old(clock))
    {
      if tripId.None? || days.NoDaysArray? {
        return Failure(Fail(400, TripAndDaysRequired));
      }
      var t := tripId.value;
      if !(t in trips && trips[t].userId == user) {
        return Failure(Fail(404, TripNotFound));
      }
      if t in byTrip {
        return Failure(Fail(400, AlreadyExists));
      }
      var saved := Save(Itinerary(t, user, days.days, 0));
      if saved.None? {
        return Failure(Invalid);
      }
      var itineraryId := AddItinerary(saved.value);
      r := Success((itineraryId, saved.value));
    }

    /** `getItinerary`: the caller's itinerary with its trip populated. */
    method GetItinerary(user: UserId, id: ItineraryId) returns (r: Result<(Itinerary, Option<Trip>), Failure>)
      requires Valid()
      ensures r.Failure? <==> !OwnsItinerary(user, id)
      ensures r.Failure? ==> r.error == Fail(404, ItineraryNotFound)
      ensures r.Success? ==>
                && r.value.0 == itineraries[id]
                && r.value.1 == Some(trips[itineraries[id].tripId])
                && r.value.1.value.userId == user
    {
      if !(id in itineraries && itineraries[id].userId == user) {
        return Failure(Fail(404, ItineraryNotFound));
      }
      var t := itineraries[id].tripId;
      var trip := if t in trips then Some(trips[t]) else None;
      r := Success((itineraries[id], trip));
    }

    /** `deleteItinerary`: exactly the caller's itinerary goes. */
    method DeleteItinerary(user: UserId, id: ItineraryId) returns (r: Result<(), Failure>)
      requires Valid()
      modifies this
      ensures Valid()
      ensures r.Failure? <==> !old(OwnsItinerary(user, id))
      ensures r.Failure? ==> r.error == Fail(404, ItineraryNotFound) && unchanged(this)
      ensures r.Success? ==>
                && itineraries == old(itineraries) - {id}
                && byTrip == old(byTrip) - {old(itineraries[id].tripId)}
                && trips == old(trips) && nextId == old(nextId) && clock == old(clock)
    {
      if !(id in itineraries && itineraries[id].userId == user) {
        return Failure(Fail(404, ItineraryNotFound));
      }
      DropItineraryOf(itineraries[id].tripId);
      r := Success(());
    }
  }

  /** The unique index holds: no two itineraries share a trip. */
  lemma OneItineraryPerTrip(s: TravelStore, a: ItineraryId, b: ItineraryId)
    requires s.Valid()
    requires a in s.itineraries && b in s.itineraries
    requires s.itineraries[a].tripId == s.itineraries[b].tripId
    ensures a == b
  {
  }
}
