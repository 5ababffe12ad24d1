/**
 * What the main screen derives from the current list of trips: one
 * destination card per trip, each built from the trip that a lookup by
 * destination finds, and the navigation route of that trip's itinerary.
 */
module MainScreen {
  import opened Wrappers
  import opened Entities

  /** The route prefix of the itinerary screen. */
  const RoutePrefix: string := "ItineraryScreen/"

  /** What one destination card shows (the trip's destination and the names of
      its activities) and where tapping the card or its button navigates to. */
  datatype Card = Card(destination: string, activities: seq<string>, route: string)

  /** `"ItineraryScreen/${trip.id}"`: the prefix followed by the trip id. */
  function ItineraryRoute(tripId: string): (route: string)
    ensures |route| == |RoutePrefix| + |tripId|
    ensures route[..|RoutePrefix|] == RoutePrefix
    ensures route[|RoutePrefix|..] == tripId
  {
    RoutePrefix + tripId
  }

  /** Distinct trips navigate to distinct routes: the route determines the id. */
  lemma ItineraryRouteInjective(a: string, b: string)
    ensures ItineraryRoute(a) == ItineraryRoute(b) <==> a == b
  {
  }

  /** `itineraries.map { it.name }`: the names of the items, in order. */
  function ActivityNames(items: seq<ItineraryItem>): (names: seq<string>)
    ensures |names| == |items|
    ensures forall k :: 0 <= k < |items| ==> names[k] == items[k].name
  {
    if items == [] then [] else [items[0].name] + ActivityNames(items[1..])
  }

  /** `trips.find { it.destination == destination }`: the first trip in list
      order with exactly that destination, or nothing. */
  function FindByDestination(trips: seq<Trip>, destination: string): (r: Option<Trip>)
    ensures r.Some? ==> r.value in trips && r.value.destination == destination
    ensures r.None? <==> forall k :: 0 <= k < |trips| ==> trips[k].destination != destination
  {
    if trips == [] then None
    else if trips[0].destination == destination then Some(trips[0])
    else FindByDestination(trips[1..], destination)
  }

  /** The lookup returns the first match: the trip at index `i` when it has the
      destination and no earlier trip has. */
  lemma {:induction false} FindByDestinationFirst(trips: seq<Trip>, destination: string, i: nat)
    requires i < |trips| && trips[i].destination == destination
    requires forall j :: 0 <= j < i ==> trips[j].destination != destination
    ensures FindByDestination(trips, destination) == Some(trips[i])
  {
    if i > 0 {
      FindByDestinationFirst(trips[1..], destination, i - 1);
    }
  }

  /** The content of the card for a trip that the lookup found: its
      destination, one activity per itinerary item in order, and the route
      `ItineraryScreen/` followed by its id. */
  function CardOf(trip: Trip): (c: Card)
    ensures c.destination == trip.destination
    ensures |c.activities| == |trip.itineraries|
    ensures forall k :: 0 <= k < |trip.itineraries| ==> c.activities[k] == trip.itineraries[k].name
    ensures |c.route| == |RoutePrefix| + |trip.id|
    ensures c.route[..|RoutePrefix|] == RoutePrefix && c.route[|RoutePrefix|..] == trip.id
  {
    Card(trip.destination, ActivityNames(trip.itineraries), ItineraryRoute(trip.id))
  }

  /**
   * `DestinationCard`: look the destination up in the current trips and, when
   * a trip is found, show that trip's destination, activities and route. The
   * names the caller passes in are not used. Nothing is shown when no trip has
   * the destination.
   */
  function DestinationCard(trips: seq<Trip>, destination: string): (r: Option<Card>)
    ensures r.None? <==> forall k :: 0 <= k < |trips| ==> trips[k].destination != destination
    ensures r.Some? ==> r.value.destination == destination
  {
    match FindByDestination(trips, destination)
    case None => None
    case Some(trip) => Some(CardOf(trip))
  }

  /** The card of the first trip with a destination is that trip's own card:
      its destination, its itinerary names in order and its route. */
  lemma DestinationCardOfFirst(trips: seq<Trip>, i: nat)
    requires i < |trips|
    requires forall j :: 0 <= j < i ==> trips[j].destination != trips[i].destination
    ensures DestinationCard(trips, trips[i].destination) == Some(CardOf(trips[i]))
    ensures var card := CardOf(trips[i]);
            card.route == RoutePrefix + trips[i].id &&
            |card.activities| == |trips[i].itineraries| &&
            forall k :: 0 <= k < |card.activities| ==> card.activities[k] == trips[i].itineraries[k].name
  {
    FindByDestinationFirst(trips, trips[i].destination, i);
  }

  /** The cards rendered for `shown` when the lookups go to `store`: each
      lookup contributes its card, or nothing on a miss. */
  function CardsFor(store: seq<Trip>, shown: seq<Trip>): (cards: seq<Card>)
    ensures |cards| <= |shown|
    ensures forall c :: c in cards ==>
              exists k :: 0 <= k < |shown| && DestinationCard(store, shown[k].destination) == Some(c)
    ensures (forall k :: 0 <= k < |shown| ==> DestinationCard(store, shown[k].destination).None?) ==> cards == []
  {
    if shown == [] then []
    else
      var first := match DestinationCard(store, shown[0].destination)
                   case None => []
                   case Some(card) => [card];
      first + CardsFor(store, shown[1..])
  }

  /** One shown trip contributes exactly its lookup's card on a hit and
      nothing on a miss. */
  lemma CardsForSingle(store: seq<Trip>, t: Trip)
    ensures DestinationCard(store, t.destination).None? ==> CardsFor(store, [t]) == []
    ensures DestinationCard(store, t.destination).Some? ==>
              CardsFor(store, [t]) == [DestinationCard(store, t.destination).value]
  {
  }

  /** The cards keep the order of the shown trips: rendering `a + b` renders
      `a`, then `b`. With `CardsForSingle` this fixes `CardsFor` for every
      list, hits and misses mixed. */
  lemma {:induction false} CardsForAppend(store: seq<Trip>, a: seq<Trip>, b: seq<Trip>)
    ensures CardsFor(store, a + b) == CardsFor(store, a) + CardsFor(store, b)
  {
    if a == [] {
      assert a + b == b;
    } else {
      assert (a + b)[0] == a[0];
      assert (a + b)[1..] == a[1..] + b;
      CardsForAppend(store, a[1..], b);
    }
  }

  /** `items(trips) { DestinationCard(...) }`: the cards of the main screen. */
  function MainScreenCards(trips: seq<Trip>): (cards: seq<Card>)
    ensures |cards| == |trips|
    ensures forall k :: 0 <= k < |trips| ==> cards[k].destination == trips[k].destination
  {
    CardsForAt(trips, trips);
    CardsFor(trips, trips)
  }

  /** When every shown trip is in the store, no lookup misses: there is one
      card per shown trip, in order, each the lookup's card. */
  lemma {:induction false} CardsForAt(store: seq<Trip>, shown: seq<Trip>)
    requires forall k :: 0 <= k < |shown| ==> shown[k] in store
    ensures |CardsFor(store, shown)| == |shown|
    ensures forall k :: 0 <= k < |shown| ==>
              DestinationCard(store, shown[k].destination) == Some(CardsFor(store, shown)[k])
  {
    if shown != [] {
      var t := shown[0];
      var j :| 0 <= j < |store| && store[j] == t;
      assert DestinationCard(store, t.destination).Some?;
      CardsForAt(store, shown[1..]);
      var cards := CardsFor(store, shown);
      assert cards == [DestinationCard(store, t.destination).value] + CardsFor(store, shown[1..]);
      forall k | 0 < k < |shown|
        ensures DestinationCard(store, shown[k].destination) == Some(cards[k])
      {
        assert shown[k] == shown[1..][k - 1];
      }
    }
  }

  /**
   * The card at position `k` shows the FIRST trip with the destination of
   * trip `k`, here `trips[j]`. So a trip whose destination is unique, or that
   * is the first with its destination, gets its own card.
   */
  lemma MainScreenCardAt(trips: seq<Trip>, k: nat, j: nat)
    requires j <= k < |trips|
    requires trips[j].destination == trips[k].destination
    requires forall i :: 0 <= i < j ==> trips[i].destination != trips[k].destination
    ensures MainScreenCards(trips)[k] == CardOf(trips[j])
  {
    CardsForAt(trips, trips);
    FindByDestinationFirst(trips, trips[k].destination, j);
  }

  /** With all destinations distinct, the main screen shows exactly one card
      per trip, in list order, each built from that trip. */
  lemma MainScreenCardsDistinct(trips: seq<Trip>)
    requires forall i, j :: 0 <= i < j < |trips| ==> trips[i].destination != trips[j].destination
    ensures MainScreenCards(trips) == seq(|trips|, k requires 0 <= k < |trips| => CardOf(trips[k]))
  {
    forall k | 0 <= k < |trips| ensures MainScreenCards(trips)[k] == CardOf(trips[k]) {
      MainScreenCardAt(trips, k, k);
    }
  }

  /** Two trips with the same destination get identical cards, both showing the
      earlier trip. */
  lemma SameDestinationSameCard(trips: seq<Trip>, a: nat, b: nat)
    requires a < b < |trips| && trips[a].destination == trips[b].destination
    ensures MainScreenCards(trips)[a] == MainScreenCards(trips)[b]
  {
    CardsForAt(trips, trips);
  }
}
