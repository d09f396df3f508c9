/**
  The shapes the front end passes around (frontend/lib/types.ts, plus the
  message fields ChatMessage reads). Numbers that the UI only renders are
  kept as pre-rendered strings; prices are whole CHF amounts.
*/
module Types {
  import opened Wrappers

  datatype Sender = User | Ai

  /**
    One booked activity. The application compares activities by object
    identity; `id` stands for that identity.
  */
  datatype Activity = Activity(id: nat, time: string, description: string, reason: string, price: int)

  datatype ItineraryDay = ItineraryDay(day: int, title: string, activities: seq<Activity>)

  datatype DayFeedback = DayFeedback(day: int, feedback: string)

  datatype CustomizationFeedback = CustomizationFeedback(generalFeedback: string, dailyFeedback: seq<DayFeedback>)

  /** A longitude/latitude pair as the UI prints it (numbers pre-rendered). */
  datatype Coord = Coord(lon: string, lat: string)

  /** `[lon, lat].join(",")`. */
  function CoordText(c: Coord): string {
    c.lon + "," + c.lat
  }

  /** A rendered number holds neither of the separators the URLs put between numbers. */
  predicate PlainNumber(s: string) {
    ',' !in s && ';' !in s
  }

  datatype Location = Location(name: string, coordinates: Coord)

  datatype RideSummary = RideSummary(duration: string, route: seq<Coord>)

  /** The ride payload a chat message carries, with the summary once the ride is over. */
  datatype RideDetails = RideDetails(pickup: Location, destination: Location, summary: Option<RideSummary>)

  datatype Message = Message(
    id: int,
    sender: Sender,
    content: string,
    itinerary: Option<seq<ItineraryDay>>,
    customizationRequest: Option<CustomizationFeedback>,
    bookingSummaryItinerary: Option<seq<ItineraryDay>>,
    rideDetails: Option<RideDetails>,
    authPrompt: bool)

  /** A message with only a sender and a text. */
  function TextMessage(id: int, sender: Sender, content: string): Message {
    Message(id, sender, content, None, None, None, None, false)
  }

  datatype SavedTrip = SavedTrip(id: string, name: string, dates: string, itinerary: seq<ItineraryDay>)
}
