/**
  The ride card in the chat (frontend/components/RideBookingCard.tsx): a
  static map image of the ride and a title, duration line and button chosen
  by whether the ride is over (a summary exists).

  `encodeURIComponent` is a parameter; the access token is the configured
  text, whatever it holds.
*/
module RideBookingCard {
  import opened Wrappers
  import opened Types
  import Text

  const StaticBase := "https://api.mapbox.com/styles/v1/mapbox/streets-v11/static/"
  const PickupPin := "pin-s-a+059669("
  const DestinationPin := "),pin-s-b+DC2626("
  const PinsEnd := "),"
  const PathOpen := "path-5+2563EB-0.8("
  const PathClose := ")"
  const SizeQuery := "/auto/400x200?access_token="

  /** `route.map(p => p.join(','))`. */
  function PointTexts(route: seq<Coord>): (r: seq<string>)
    ensures |r| == |route| && forall i :: 0 <= i < |r| ==> r[i] == CoordText(route[i])
  {
    seq(|route|, i requires 0 <= i < |route| => CoordText(route[i]))
  }

  /** The route as "lon,lat;lon,lat;…", before encoding. */
  function RouteText(route: seq<Coord>): string {
    Text.Join(PointTexts(route), ";")
  }

  /** The path overlay, present only once the ride has a summary. */
  function PathOverlay(summary: Option<RideSummary>, encode: string -> string): (o: string)
    ensures summary.None? ==> o == ""
    ensures summary.Some? ==> o == PathOpen + encode(RouteText(summary.value.route)) + PathClose
  {
    match summary
    case None => ""
    case Some(s) => PathOpen + encode(RouteText(s.route)) + PathClose
  }

  /** getStaticMapUrl. */
  function StaticMapUrl(payload: RideDetails, summary: Option<RideSummary>, token: string, encode: string -> string): string {
    StaticBase + PickupPin + CoordText(payload.pickup.coordinates)
      + DestinationPin + CoordText(payload.destination.coordinates) + PinsEnd
      + PathOverlay(summary, encode) + SizeQuery + token
  }

  /** The pins part of the URL: the pickup pin, labelled a, then the destination pin, labelled b. */
  function Pins(payload: RideDetails): string {
    StaticBase + PickupPin + CoordText(payload.pickup.coordinates)
      + DestinationPin + CoordText(payload.destination.coordinates) + PinsEnd
  }

  /**
    The URL starts with the pickup pin then the destination pin; then comes
    the overlay, and then the size and the token. Without a summary the
    overlay is empty, which leaves "),/auto/" in the URL.
  */
  lemma StaticMapUrlParts(payload: RideDetails, summary: Option<RideSummary>, token: string, encode: string -> string)
    ensures var url := StaticMapUrl(payload, summary, token, encode);
      && url == Pins(payload) + PathOverlay(summary, encode) + SizeQuery + token
      && url[..|Pins(payload)|] == Pins(payload)
      && (summary.None? ==> Text.Contains(url, PinsEnd + SizeQuery))
  {
    var url := StaticMapUrl(payload, summary, token, encode);
    assert url == Pins(payload) + PathOverlay(summary, encode) + SizeQuery + token;
    if summary.None? {
      assert url == StaticBase + PickupPin + CoordText(payload.pickup.coordinates)
        + DestinationPin + CoordText(payload.destination.coordinates) + (PinsEnd + SizeQuery) + token;
      Text.ContainsInContext(StaticBase + PickupPin + CoordText(payload.pickup.coordinates)
        + DestinationPin + CoordText(payload.destination.coordinates), PinsEnd + SizeQuery, token);
    }
  }

  /**
    The route before encoding reads back, split on ';' and then on ',', as
    the route's points in order.
  */
  lemma RouteTextRoundTrip(route: seq<Coord>)
    requires |route| > 0
    requires forall i :: 0 <= i < |route| ==> PlainNumber(route[i].lon) && PlainNumber(route[i].lat)
    ensures var pieces := Text.Split(RouteText(route), ';');
      && |pieces| == |route|
      && forall i :: 0 <= i < |route| ==> Text.Split(pieces[i], ',') == [route[i].lon, route[i].lat]
  {
    var texts := PointTexts(route);
    forall i | 0 <= i < |texts|
      ensures ';' !in texts[i]
    {
      assert texts[i] == route[i].lon + [','] + route[i].lat;
    }
    Text.SplitJoin(texts, ';');
    forall i | 0 <= i < |route|
      ensures Text.Split(texts[i], ',') == [route[i].lon, route[i].lat]
    {
      Text.SplitPair(route[i].lon, ',', route[i].lat);
    }
  }

  // -----------------------------------------------------------------------
  // The card
  // -----------------------------------------------------------------------

  const CompletedTitle := "Ride Completed"
  const BookingTitle := "Ride Booking"
  const DurationPrefix := "Trip duration: ~"

  datatype Card = Card(title: string, imageUrl: string, from: string, to: string,
                       durationLine: Option<string>, liveMapButton: bool)

  function RenderCard(payload: RideDetails, summary: Option<RideSummary>, token: string, encode: string -> string): Card {
    Card(if summary.Some? then CompletedTitle else BookingTitle,
         StaticMapUrl(payload, summary, token, encode),
         payload.pickup.name, payload.destination.name,
         if summary.Some? then Some(DurationPrefix + summary.value.duration) else None,
         summary.None?)
  }

  /**
    A completed ride is titled "Ride Completed" and shows its duration; a
    ride being booked is titled "Ride Booking" and offers the live map
    instead. The two never show together.
  */
  lemma CardBySummary(payload: RideDetails, summary: Option<RideSummary>, token: string, encode: string -> string)
    ensures var c := RenderCard(payload, summary, token, encode);
      && (c.title == CompletedTitle <==> summary.Some?)
      && (c.durationLine.Some? <==> summary.Some?)
      && (c.liveMapButton <==> c.durationLine.None?)
      && (summary.Some? ==> c.durationLine == Some(DurationPrefix + summary.value.duration))
      && c.from == payload.pickup.name && c.to == payload.destination.name
  {
    assert CompletedTitle != BookingTitle by {
      assert CompletedTitle[5] == 'C' && BookingTitle[5] == 'B';
    }
  }
}
