/**
  How one chat message is drawn (frontend/components/ChatMessage.tsx): a
  chain of checks on the message's fields, read in a fixed order, that picks
  one card or bubble. Fields are checked for JavaScript truthiness: an object
  or an array, even an empty one, is truthy; the empty string is not.
*/
module ChatMessage {
  import opened Wrappers
  import opened Types

  datatype View =
    | AuthCard
    | RideCard(details: RideDetails)
    | BookingCard(itinerary: seq<ItineraryDay>)
    | ItineraryCard(itinerary: seq<ItineraryDay>)
    | CustomizationBubble(feedback: CustomizationFeedback)
    | Nothing
    | TextBubble(rightAligned: bool)

  /** The render-kind dispatch. */
  function Classify(m: Message): View {
    var isAi := m.sender == Ai;
    if m.authPrompt then AuthCard
    else if isAi && m.rideDetails.Some? then RideCard(m.rideDetails.value)
    else if isAi && m.bookingSummaryItinerary.Some? then BookingCard(m.bookingSummaryItinerary.value)
    else if isAi && m.itinerary.Some? && |m.itinerary.value| > 0 then ItineraryCard(m.itinerary.value)
    else if m.sender == User && m.customizationRequest.Some? then CustomizationBubble(m.customizationRequest.value)
    else if m.content == "" then Nothing
    else TextBubble(m.sender == User)
  }

  /** A message asking the user to sign in shows the sign-in card, whatever else it carries. */
  lemma AuthPromptFirst(m: Message)
    requires m.authPrompt
    ensures Classify(m) == AuthCard
  {
  }

  /**
    For the assistant's messages the ride card beats the booking card, which
    beats the itinerary card; each is chosen exactly when the ones before it
    do not apply.
  */
  lemma AiPriority(m: Message)
    requires !m.authPrompt && m.sender == Ai
    ensures Classify(m).RideCard? <==> m.rideDetails.Some?
    ensures Classify(m).BookingCard? <==> m.rideDetails.None? && m.bookingSummaryItinerary.Some?
    ensures Classify(m).ItineraryCard? <==>
              m.rideDetails.None? && m.bookingSummaryItinerary.None? && m.itinerary.Some? && |m.itinerary.value| > 0
    ensures Classify(m).RideCard? ==> Classify(m).details == m.rideDetails.value
    ensures Classify(m).BookingCard? ==> Classify(m).itinerary == m.bookingSummaryItinerary.value
  {
  }

  /** An empty itinerary never selects the itinerary card. */
  lemma EmptyItineraryNotShown(m: Message)
    requires m.itinerary == Some([])
    ensures !Classify(m).ItineraryCard?
  {
  }

  /** An empty booking list still selects the booking card: an empty array is truthy. */
  lemma EmptyBookingListShown(m: Message)
    requires !m.authPrompt && m.sender == Ai && m.rideDetails.None? && m.bookingSummaryItinerary == Some([])
    ensures Classify(m) == BookingCard([])
  {
  }

  /** The customisation bubble is only for the user's own messages, and always for those that carry a request. */
  lemma CustomizationOnlyForUser(m: Message)
    requires !m.authPrompt
    ensures Classify(m).CustomizationBubble? <==> m.sender == User && m.customizationRequest.Some?
  {
  }

  /**
    A message of no special kind draws nothing when its text is empty, and
    otherwise a bubble on the user's side for the user and on the other
    side for the assistant.
  */
  lemma PlainMessages(m: Message)
    requires !m.authPrompt
    requires m.sender == Ai ==>
               m.rideDetails.None? && m.bookingSummaryItinerary.None? && (m.itinerary.None? || m.itinerary.value == [])
    requires m.sender == User ==> m.customizationRequest.None?
    ensures m.content == "" ==> Classify(m) == Nothing
    ensures m.content != "" ==> Classify(m) == TextBubble(m.sender == User)
  {
  }

  /** The special kinds are all that is ever drawn for an empty text. */
  lemma NothingOnlyForEmptyText(m: Message)
    ensures Classify(m) == Nothing ==> m.content == ""
    ensures Classify(m).TextBubble? ==> m.content != "" && (Classify(m).rightAligned <==> m.sender == User)
  {
  }
}
