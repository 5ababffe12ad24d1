/**
 * The records the screens work on. They are plain values: nothing in the
 * modelled code changes a trip or an itinerary item after it is built.
 */
module Entities {
  /** The owner of a trip or of a set of preferences. Its class is not part of
      this model; an identifier stands for it. */
  datatype User = User(id: string)

  /** One planned activity of a trip. The back-reference to the owning trip is
      kept as that trip's identifier, not as a link to the trip itself. */
  datatype ItineraryItem = ItineraryItem(
    tripId: string,
    id: string,
    name: string,
    location: string,
    startDate: string,
    endDate: string)

  /** A trip, with the fields the main screen reads from it. */
  datatype Trip = Trip(
    id: string,
    destination: string,
    user: User,
    itineraries: seq<ItineraryItem>)
}
